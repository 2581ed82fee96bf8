// The executor's own policy, and the transaction shape it is applied to.
module ExecutionPolicy {
  import opened Prelude
  import opened Arith
  import opened FixedPoint
  import opened Codecs
  import opened WatchRules
  import opened Policy

  // ---- Transactions ----------------------------------------------------------------------

  type Signature = bytes

  function Zeros(n: nat): (b: bytes)
    ensures |b| == n
  {
    if n == 0 then [] else [0] + Zeros(n - 1)
  }

  const DEFAULT_SIGNATURE: Signature := Zeros(64)
  const ZERO_BLOCKHASH: bytes := Zeros(32)

  datatype CompiledInstruction = CompiledInstruction(programIdIndex: u8, accounts: seq<u8>, data: bytes)

  datatype Message = Message(
    numRequiredSignatures: u8,
    numReadonlySigned: u8,
    numReadonlyUnsigned: u8,
    accountKeys: seq<PubkeyBytes>,
    recentBlockhash: bytes,
    instructions: seq<CompiledInstruction>)

  datatype Transaction = Transaction(signatures: seq<Signature>, message: Message)

  /** The wire format: library code, left uninterpreted. */
  datatype Wire = Wire(
    messageBytes: Message -> bytes,
    encode: Transaction -> Option<bytes>,
    decode: bytes -> Option<Transaction>,
    signaturesVerify: Transaction -> bool)

  /** The reviewed programs and the mint, as keys. */
  datatype ExecutionPins = ExecutionPins(
    computeBudget: PubkeyBytes, solendProgram: PubkeyBytes, tokenProgram: PubkeyBytes, usdcMint: PubkeyBytes)

  datatype Canonical = Canonical(
    solendProgramId: PubkeyBytes,
    inputMint: PubkeyBytes,
    inputAmountRaw: u64,
    sourceLiquidity: PubkeyBytes,
    reserveLiquiditySupply: PubkeyBytes,
    expectedMessageBytes: bytes)

  // ---- The policy ----------------------------------------------------------------------------

  const DEPOSIT_RULE := "canonical-solend-deposit"

  /** The cap is one above the canonical amount, so the largest u64 has no policy. */
  function ExecutionPolicyFor(lib: Library, pins: ExecutionPins, c: Canonical): Option<PolicySet> {
    if c.inputAmountRaw + 1 >= TWO_64 then None
    else
      var usdc := lib.keyText(pins.usdcMint);
      Some(PolicySet(
        [Rule("simulation-required", SimulationNotPassed, Reject),
         Rule("program-allowlist", ProgramNotInAllowlist, Reject),
         Rule("legacy-token-transfer", LegacyTokenTransferPresent, Reject),
         Rule("usdc-only", MintNotInAllowlist([usdc]), Reject),
         Rule("canonical-amount-cap", TokenAmountExceeds(usdc, c.inputAmountRaw + 1), Reject),
         Rule(DEPOSIT_RULE, Always, Approve)],
        [lib.keyText(pins.computeBudget), lib.keyText(pins.solendProgram)], []))
  }

  predicate ProgramsAllowed(lib: Library, pins: ExecutionPins, ixs: seq<InstructionSummary>) {
    forall i :: 0 <= i < |ixs| ==>
      ixs[i].programId == lib.keyText(pins.computeBudget) || ixs[i].programId == lib.keyText(pins.solendProgram)
  }

  predicate OnlyUsdcMoves(lib: Library, pins: ExecutionPins, ixs: seq<InstructionSummary>) {
    forall i :: 0 <= i < |ixs| && ixs[i].tokenTransfer.Some? ==>
      ixs[i].tokenTransfer.value.mint == lib.keyText(pins.usdcMint)
  }

  predicate NoLegacyTransfer(ixs: seq<InstructionSummary>) {
    forall i :: 0 <= i < |ixs| ==> !ixs[i].isLegacyTokenTransfer
  }

  predicate SimulationPassed(ctx: Context) {
    ctx.simulation.Some? && ctx.simulation.value.success
  }

  /** Everything but the amount. */
  predicate ShapeAllowed(lib: Library, pins: ExecutionPins, ctx: Context) {
    && SimulationPassed(ctx) && ProgramsAllowed(lib, pins, ctx.instructions)
    && NoLegacyTransfer(ctx.instructions) && OnlyUsdcMoves(lib, pins, ctx.instructions)
  }

  /** First match over the six rules amounts to one conjunction. The amount test is
      on the sum as it is computed, modulo 2^64. */
  lemma ApprovedIff(lib: Library, pins: ExecutionPins, c: Canonical, ctx: Context)
    requires ExecutionPolicyFor(lib, pins, c).Some?
    ensures
      var verdict := VerdictOf(ExecutionPolicyFor(lib, pins, c).value, ctx);
      verdict.Approved? <==>
        ShapeAllowed(lib, pins, ctx)
        && TokenTotal(ctx.instructions, lib.keyText(pins.usdcMint)) % TWO_64 <= c.inputAmountRaw
    ensures
      var verdict := VerdictOf(ExecutionPolicyFor(lib, pins, c).value, ctx);
      verdict.Approved? ==> verdict.rule == DEPOSIT_RULE
  {
    var p := ExecutionPolicyFor(lib, pins, c).value;
    WrappedTotalIsModular(ctx.instructions, lib.keyText(pins.usdcMint), 0);
    RuleMeanings(lib, pins, c, ctx);
    SixRules(p, ctx);
    assert (forall i :: 0 <= i < 5 ==> !Matches(p, p.rules[i], ctx)) <==>
      !Matches(p, p.rules[0], ctx) && !Matches(p, p.rules[1], ctx) && !Matches(p, p.rules[2], ctx)
      && !Matches(p, p.rules[3], ctx) && !Matches(p, p.rules[4], ctx);
  }

  lemma RuleMeanings(lib: Library, pins: ExecutionPins, c: Canonical, ctx: Context)
    requires ExecutionPolicyFor(lib, pins, c).Some?
    ensures
      var p := ExecutionPolicyFor(lib, pins, c).value;
      && (Matches(p, p.rules[0], ctx) <==> !SimulationPassed(ctx))
      && (Matches(p, p.rules[1], ctx) <==> !ProgramsAllowed(lib, pins, ctx.instructions))
      && (Matches(p, p.rules[2], ctx) <==> !NoLegacyTransfer(ctx.instructions))
      && (Matches(p, p.rules[3], ctx) <==> !OnlyUsdcMoves(lib, pins, ctx.instructions))
      && (Matches(p, p.rules[4], ctx) <==>
            WrappedTotal(ctx.instructions, lib.keyText(pins.usdcMint), 0) > c.inputAmountRaw)
  {
    var p := ExecutionPolicyFor(lib, pins, c).value;
    var usdc := lib.keyText(pins.usdcMint);
    assert forall t: string :: t in [usdc] <==> t == usdc;
    assert forall t: string :: t in p.programAllowlist <==>
      t == lib.keyText(pins.computeBudget) || t == lib.keyText(pins.solendProgram);
  }

  lemma SixRules(p: PolicySet, ctx: Context)
    requires |p.rules| == 6 && p.rules[5].condition == Always
    requires forall i :: 0 <= i < 5 ==> p.rules[i].action == Reject
    requires p.rules[5].action == Approve
    ensures
      VerdictOf(p, ctx).Approved? <==>
        !SimulationRefused(ctx) && forall i :: 0 <= i < 5 ==> !Matches(p, p.rules[i], ctx)
    ensures VerdictOf(p, ctx).Approved? ==> VerdictOf(p, ctx).rule == p.rules[5].name
  {
    if i :| 0 <= i < 5 && Matches(p, p.rules[i], ctx) {
      var k := Least(p, p.rules, ctx, 0);
      FirstMatchDecides(p, ctx, k);
    } else {
      FirstMatchDecides(p, ctx, 5);
    }
  }

  /** Which rule rejects: the first of the five tests that fails, in this order, and by name. */
  lemma RejectionNamesFirstTest(lib: Library, pins: ExecutionPins, c: Canonical, ctx: Context)
    requires ExecutionPolicyFor(lib, pins, c).Some?
    ensures
      var ixs := ctx.instructions;
      VerdictOf(ExecutionPolicyFor(lib, pins, c).value, ctx) ==
      if SimulationRefused(ctx) then SimulationFailed
      else if ctx.simulation.None? then Rejected("simulation-required")
      else if !ProgramsAllowed(lib, pins, ixs) then Rejected("program-allowlist")
      else if !NoLegacyTransfer(ixs) then Rejected("legacy-token-transfer")
      else if !OnlyUsdcMoves(lib, pins, ixs) then Rejected("usdc-only")
      else if TokenTotal(ixs, lib.keyText(pins.usdcMint)) % TWO_64 > c.inputAmountRaw then
        Rejected("canonical-amount-cap")
      else Approved("canonical-solend-deposit")
  {
    var p := ExecutionPolicyFor(lib, pins, c).value;
    WrappedTotalIsModular(ctx.instructions, lib.keyText(pins.usdcMint), 0);
    RuleMeanings(lib, pins, c, ctx);
    if !SimulationRefused(ctx) {
      FirstOfSix(p, ctx);
    }
  }

  lemma FirstOfSix(p: PolicySet, ctx: Context)
    requires |p.rules| == 6 && p.rules[5].condition == Always && !SimulationRefused(ctx)
    ensures
      VerdictOf(p, ctx) ==
      if Matches(p, p.rules[0], ctx) then ActionVerdict(p.rules[0])
      else if Matches(p, p.rules[1], ctx) then ActionVerdict(p.rules[1])
      else if Matches(p, p.rules[2], ctx) then ActionVerdict(p.rules[2])
      else if Matches(p, p.rules[3], ctx) then ActionVerdict(p.rules[3])
      else if Matches(p, p.rules[4], ctx) then ActionVerdict(p.rules[4])
      else ActionVerdict(p.rules[5])
  {
    var i := Least(p, p.rules, ctx, 0);
    FirstMatchDecides(p, ctx, i);
  }

  /** While the total fits 64 bits the policy caps the true amount exactly. */
  lemma CapIsExactBelowTwo64(lib: Library, pins: ExecutionPins, c: Canonical, ctx: Context)
    requires ExecutionPolicyFor(lib, pins, c).Some?
    requires TokenTotal(ctx.instructions, lib.keyText(pins.usdcMint)) < TWO_64
    ensures
      VerdictOf(ExecutionPolicyFor(lib, pins, c).value, ctx).Approved? <==>
        ShapeAllowed(lib, pins, ctx) && TokenTotal(ctx.instructions, lib.keyText(pins.usdcMint)) <= c.inputAmountRaw
  {
    ApprovedIff(lib, pins, c, ctx);
  }

  /** An approval exceeds the canonical amount if and only if the sum wrapped. */
  lemma CapFailsIffWrapped(lib: Library, pins: ExecutionPins, c: Canonical, ctx: Context)
    requires ExecutionPolicyFor(lib, pins, c).Some?
    requires VerdictOf(ExecutionPolicyFor(lib, pins, c).value, ctx).Approved?
    ensures
      var total := TokenTotal(ctx.instructions, lib.keyText(pins.usdcMint));
      total > c.inputAmountRaw <==> total >= TWO_64
  {
    ApprovedIff(lib, pins, c, ctx);
  }

  /** Such a summary exists: two transfers whose sum is 2^64. */
  lemma WrappedSumExample(lib: Library, pins: ExecutionPins, c: Canonical, ctx: Context)
    requires c.inputAmountRaw == 1
    requires
      var t := Some(TokenTransfer(lib.keyText(pins.usdcMint), TWO_63));
      var ix := InstructionSummary(lib.keyText(pins.solendProgram), [], None, t, false);
      ctx.instructions == [ix, ix] && ctx.simulation == Some(Simulation(true, None, []))
    ensures ExecutionPolicyFor(lib, pins, c).Some?
    ensures VerdictOf(ExecutionPolicyFor(lib, pins, c).value, ctx).Approved?
    ensures TokenTotal(ctx.instructions, lib.keyText(pins.usdcMint)) == TWO_64
  {
    var ixs := ctx.instructions;
    assert TokenTotal(ixs[1..][1..], lib.keyText(pins.usdcMint)) == 0;
    ApprovedIff(lib, pins, c, ctx);
  }

  // ---- The accepted transaction ---------------------------------------------------------------

  const REVIEWED_LIMIT_DATA: bytes := [2, 0x80, 0x1a, 0x06, 0]
  const REVIEWED_PRICE_DATA: bytes := [3, 0x50, 0xc3, 0, 0, 0, 0, 0, 0]
  const REFRESH_RESERVE_TAG: u8 := 3
  const DEPOSIT_TAG: u8 := 14
  const DEPOSIT_ACCOUNTS: nat := 14

  datatype WalletError =
    | TransactionShapeRejected
    | SerializationFailed
    | AuditOutputFailed
    | AuditIntegrityFailed
    | SimulationStepFailed
    | PolicyRejected
    | PolicyNotAutoApproved
    | SigningFailed
    | SignedCaptureMissing
    | MessageBytesChanged
    | SignatureInvalid

  /** Only the blockhash may differ from the builder's message. */
  predicate MatchesTemplate(wire: Wire, m: Message, expected: bytes) {
    wire.messageBytes(m.(recentBlockhash := ZERO_BLOCKHASH)) == expected
  }

  predicate EnvelopeAccepted(wire: Wire, pins: ExecutionPins, tx: Transaction, wallet: PubkeyBytes, c: Canonical) {
    && c.solendProgramId == pins.solendProgram && c.inputMint == pins.usdcMint && c.inputAmountRaw != 0
    && MatchesTemplate(wire, tx.message, c.expectedMessageBytes)
    && |tx.message.instructions| == 4
    && |tx.message.accountKeys| > 0 && tx.message.accountKeys[0] == wallet
    && tx.message.numRequiredSignatures == 1
    && tx.signatures == [DEFAULT_SIGNATURE]
  }

  function KeyAt(m: Message, index: u8): Option<PubkeyBytes> {
    if index < |m.accountKeys| then Some(m.accountKeys[index]) else None
  }

  function InstructionAccount(m: Message, ix: CompiledInstruction, position: nat): Option<PubkeyBytes> {
    if position < |ix.accounts| then KeyAt(m, ix.accounts[position]) else None
  }

  predicate ProgramsAccepted(pins: ExecutionPins, m: Message) {
    && |m.instructions| == 4
    && KeyAt(m, m.instructions[0].programIdIndex) == Some(pins.computeBudget)
    && KeyAt(m, m.instructions[1].programIdIndex) == Some(pins.computeBudget)
    && KeyAt(m, m.instructions[2].programIdIndex) == Some(pins.solendProgram)
    && KeyAt(m, m.instructions[3].programIdIndex) == Some(pins.solendProgram)
    && m.instructions[0].data == REVIEWED_LIMIT_DATA && m.instructions[1].data == REVIEWED_PRICE_DATA
    && m.instructions[2].data == [REFRESH_RESERVE_TAG]
  }

  predicate DepositAccepted(pins: ExecutionPins, m: Message, wallet: PubkeyBytes, c: Canonical)
    requires |m.instructions| == 4
  {
    var deposit := m.instructions[3];
    && |deposit.data| == 9 && deposit.data[0] == DEPOSIT_TAG && |deposit.accounts| == DEPOSIT_ACCOUNTS
    && LittleEndian(deposit.data[1..9]) == c.inputAmountRaw
    && InstructionAccount(m, deposit, 0) == Some(c.sourceLiquidity)
    && InstructionAccount(m, deposit, 3) == Some(c.reserveLiquiditySupply)
    && InstructionAccount(m, deposit, 9) == Some(wallet)
    && InstructionAccount(m, deposit, 12) == Some(wallet)
    && InstructionAccount(m, deposit, 13) == Some(pins.tokenProgram)
  }

  predicate AccountsResolve(m: Message) {
    forall i, j :: 0 <= i < |m.instructions| && 0 <= j < |m.instructions[i].accounts| ==>
      m.instructions[i].accounts[j] < |m.accountKeys|
  }

  predicate Accepted(wire: Wire, pins: ExecutionPins, tx: Transaction, wallet: PubkeyBytes, c: Canonical) {
    && EnvelopeAccepted(wire, pins, tx, wallet, c) && ProgramsAccepted(pins, tx.message)
    && DepositAccepted(pins, tx.message, wallet, c) && AccountsResolve(tx.message)
  }

  function AccountTexts(lib: Library, m: Message, accounts: seq<u8>): Option<seq<string>> {
    if accounts == [] then Some([])
    else
      var first, rest := KeyAt(m, accounts[0]), AccountTexts(lib, m, accounts[1..]);
      if first.Some? && rest.Some? then Some([lib.keyText(first.value)] + rest.value) else None
  }

  lemma {:induction false} TextsIffResolve(lib: Library, m: Message, accounts: seq<u8>)
    ensures AccountTexts(lib, m, accounts).Some? <==> forall j :: 0 <= j < |accounts| ==> accounts[j] < |m.accountKeys|
  {
    if accounts != [] {
      TextsIffResolve(lib, m, accounts[1..]);
      assert forall j :: 1 <= j < |accounts| ==> accounts[j] == accounts[1..][j - 1];
    }
  }

  function SummaryOf(lib: Library, m: Message, c: Canonical, index: nat): Option<InstructionSummary>
    requires index < |m.instructions|
  {
    var ix := m.instructions[index];
    var program, accounts := KeyAt(m, ix.programIdIndex), AccountTexts(lib, m, ix.accounts);
    if program.None? || accounts.None? then None
    else
      Some(InstructionSummary(
        lib.keyText(program.value), accounts.value, None,
        if index == 3 then Some(TokenTransfer(lib.keyText(c.inputMint), c.inputAmountRaw)) else None, false))
  }

  predicate AreSummaries(lib: Library, m: Message, c: Canonical, summaries: seq<InstructionSummary>) {
    |summaries| == |m.instructions|
    && forall k :: 0 <= k < |summaries| ==> Some(summaries[k]) == SummaryOf(lib, m, c, k)
  }

  method Summarize(lib: Library, m: Message, c: Canonical) returns (r: Option<seq<InstructionSummary>>)
    requires forall k :: 0 <= k < |m.instructions| ==> KeyAt(m, m.instructions[k].programIdIndex).Some?
    ensures r.Some? <==> AccountsResolve(m)
    ensures r.Some? ==> AreSummaries(lib, m, c, r.value)
  {
    var summaries: seq<InstructionSummary> := [];
    for k := 0 to |m.instructions|
      invariant |summaries| == k
      invariant forall j :: 0 <= j < k ==> Some(summaries[j]) == SummaryOf(lib, m, c, j)
      invariant forall i, j :: 0 <= i < k && 0 <= j < |m.instructions[i].accounts| ==>
                  m.instructions[i].accounts[j] < |m.accountKeys|
    {
      var summary := SummaryOf(lib, m, c, k);
      TextsIffResolve(lib, m, m.instructions[k].accounts);
      if summary.None? {
        return None;
      }
      summaries := summaries + [summary.value];
    }
    r := Some(summaries);
  }

  lemma ProgramsResolve(pins: ExecutionPins, m: Message)
    requires ProgramsAccepted(pins, m)
    ensures forall k :: 0 <= k < |m.instructions| ==> KeyAt(m, m.instructions[k].programIdIndex).Some?
  {
    forall k | 0 <= k < |m.instructions| ensures KeyAt(m, m.instructions[k].programIdIndex).Some? {
      assert k == 0 || k == 1 || k == 2 || k == 3;
    }
  }

  /** The source's chain of early returns, with one summary per instruction. */
  method ValidateAndSummarize(lib: Library, wire: Wire, pins: ExecutionPins, tx: Transaction, wallet: PubkeyBytes,
                              c: Canonical) returns (r: Result<seq<InstructionSummary>, WalletError>)
    ensures r.Ok? <==> Accepted(wire, pins, tx, wallet, c)
    ensures r.Ok? ==> AreSummaries(lib, tx.message, c, r.value)
    ensures r.Err? ==> r.error == TransactionShapeRejected
  {
    if !EnvelopeAccepted(wire, pins, tx, wallet, c) {
      return Err(TransactionShapeRejected);
    }
    if !ProgramsAccepted(pins, tx.message) {
      return Err(TransactionShapeRejected);
    }
    if !DepositAccepted(pins, tx.message, wallet, c) {
      return Err(TransactionShapeRejected);
    }
    ProgramsResolve(pins, tx.message);
    var summaries := Summarize(lib, tx.message, c);
    r := if summaries.None? then Err(TransactionShapeRejected) else Ok(summaries.value);
  }

  lemma {:induction false} TextAt(lib: Library, m: Message, accounts: seq<u8>, j: nat)
    requires AccountTexts(lib, m, accounts).Some? && j < |accounts|
    ensures |AccountTexts(lib, m, accounts).value| == |accounts| && accounts[j] < |m.accountKeys|
    ensures AccountTexts(lib, m, accounts).value[j] == lib.keyText(m.accountKeys[accounts[j]])
  {
    if j > 0 {
      TextAt(lib, m, accounts[1..], j - 1);
    } else if |accounts| > 1 {
      TextAt(lib, m, accounts[1..], 0);
    }
  }

  /** A summary lists every account of its instruction, in order and by its key's text, and
      no movement of lamports. */
  lemma SummaryAccounts(lib: Library, m: Message, c: Canonical, summaries: seq<InstructionSummary>, k: nat, j: nat)
    requires AreSummaries(lib, m, c, summaries) && k < |summaries| && j < |m.instructions[k].accounts|
    ensures |summaries[k].accounts| == |m.instructions[k].accounts| && summaries[k].transferLamports.None?
    ensures m.instructions[k].accounts[j] < |m.accountKeys|
    ensures summaries[k].accounts[j] == lib.keyText(m.accountKeys[m.instructions[k].accounts[j]])
  {
    assert Some(summaries[k]) == SummaryOf(lib, m, c, k);
    TextAt(lib, m, m.instructions[k].accounts, j);
  }

  lemma SummaryParts(lib: Library, pins: ExecutionPins, m: Message, c: Canonical, summaries: seq<InstructionSummary>,
                     k: nat)
    requires ProgramsAccepted(pins, m) && AreSummaries(lib, m, c, summaries) && k < 4
    ensures
      summaries[k].programId == lib.keyText(if k < 2 then pins.computeBudget else pins.solendProgram)
    ensures !summaries[k].isLegacyTokenTransfer
    ensures
      summaries[k].tokenTransfer
      == if k == 3 then Some(TokenTransfer(lib.keyText(c.inputMint), c.inputAmountRaw)) else None
  {
    assert Some(summaries[k]) == SummaryOf(lib, m, c, k);
  }

  /** Every transaction that the validator accepts and that simulates successfully
      is approved by the last rule, unless the amount is the one that has no policy. */
  lemma AcceptedIsApproved(lib: Library, wire: Wire, pins: ExecutionPins, tx: Transaction, wallet: PubkeyBytes,
                           c: Canonical, summaries: seq<InstructionSummary>, ctx: Context)
    requires Accepted(wire, pins, tx, wallet, c) && AreSummaries(lib, tx.message, c, summaries)
    requires ctx.instructions == summaries && SimulationPassed(ctx)
    ensures ExecutionPolicyFor(lib, pins, c).Some? <==> c.inputAmountRaw < TWO_64 - 1
    ensures
      c.inputAmountRaw < TWO_64 - 1 ==>
        VerdictOf(ExecutionPolicyFor(lib, pins, c).value, ctx) == Approved(DEPOSIT_RULE)
    ensures TokenTotal(summaries, lib.keyText(pins.usdcMint)) == c.inputAmountRaw
  {
    forall k | 0 <= k < 4
      ensures summaries[k].programId == lib.keyText(if k < 2 then pins.computeBudget else pins.solendProgram)
      ensures !summaries[k].isLegacyTokenTransfer
      ensures summaries[k].tokenTransfer
           == if k == 3 then Some(TokenTransfer(lib.keyText(pins.usdcMint), c.inputAmountRaw)) else None
    {
      SummaryParts(lib, pins, tx.message, c, summaries, k);
    }
    PlainSummariesApproved(lib, pins, c, ctx);
  }

  lemma PlainSummariesApproved(lib: Library, pins: ExecutionPins, c: Canonical, ctx: Context)
    requires SimulationPassed(ctx) && |ctx.instructions| == 4
    requires forall k :: 0 <= k < 4 ==>
      ctx.instructions[k].programId == lib.keyText(if k < 2 then pins.computeBudget else pins.solendProgram)
    requires forall k :: 0 <= k < 4 ==> !ctx.instructions[k].isLegacyTokenTransfer
    requires forall k :: 0 <= k < 4 ==>
      ctx.instructions[k].tokenTransfer
      == if k == 3 then Some(TokenTransfer(lib.keyText(pins.usdcMint), c.inputAmountRaw)) else None
    ensures TokenTotal(ctx.instructions, lib.keyText(pins.usdcMint)) == c.inputAmountRaw
    ensures
      ExecutionPolicyFor(lib, pins, c).Some? ==>
        VerdictOf(ExecutionPolicyFor(lib, pins, c).value, ctx) == Approved(DEPOSIT_RULE)
  {
    TotalOfFour(ctx.instructions, lib.keyText(pins.usdcMint), c.inputAmountRaw);
    if ExecutionPolicyFor(lib, pins, c).Some? {
      ApprovedIff(lib, pins, c, ctx);
    }
  }

  lemma TotalOfFour(s: seq<InstructionSummary>, mint: string, amount: u64)
    requires |s| == 4 && s[0].tokenTransfer.None? && s[1].tokenTransfer.None? && s[2].tokenTransfer.None?
    requires s[3].tokenTransfer == Some(TokenTransfer(mint, amount))
    ensures TokenTotal(s, mint) == amount
  {
    assert TokenTotal(s[3..], mint) == amount + TokenTotal(s[3..][1..], mint) == amount;
    assert s[1..][1..] == s[2..] && s[2..][1..] == s[3..];
    assert TokenTotal(s[2..], mint) == TokenTotal(s[3..], mint);
    assert TokenTotal(s[1..], mint) == TokenTotal(s[2..], mint);
  }
}
