// The transaction builder for a validated plan, and the two directions of its fit with the
// transaction validator: what is built is accepted, and what is accepted was built.
module DepositBuilder {
  import opened Prelude
  import opened FixedPoint
  import opened Codecs
  import opened WatchRules
  import opened Candidates
  import opened ExecutionPolicy
  import opened WalletReview

  // ---- Instructions -----------------------------------------------------------------------

  datatype AccountMeta = AccountMeta(key: PubkeyBytes, writable: bool, signer: bool)

  datatype Instruction = Instruction(program: PubkeyBytes, accounts: seq<AccountMeta>, data: bytes)

  const COMPUTE_UNIT_LIMIT: u32 := 400_000
  const COMPUTE_UNIT_PRICE_MICRO_LAMPORTS: u64 := 50_000

  /** Library code the builder calls: message compilation, the lending market's authority
      and the clock account. */
  datatype Compiler = Compiler(
    compile: (seq<Instruction>, PubkeyBytes) -> Message,
    authorityOf: (PubkeyBytes, PubkeyBytes) -> PubkeyBytes,
    clock: PubkeyBytes)

  function Writable(key: PubkeyBytes): AccountMeta {
    AccountMeta(key, true, false)
  }

  function ReadOnly(key: PubkeyBytes): AccountMeta {
    AccountMeta(key, false, false)
  }

  function SetComputeUnitLimit(pins: ExecutionPins, units: u32): Instruction {
    Instruction(pins.computeBudget, [], [2] + ToLittleEndian(units, 4))
  }

  function SetComputeUnitPrice(pins: ExecutionPins, price: u64): Instruction {
    Instruction(pins.computeBudget, [], [3] + ToLittleEndian(price, 8))
  }

  function RefreshReserve(b: Compiler, p: PlanInputs): Instruction {
    Instruction(p.solendProgramId,
                [Writable(p.reserve), ReadOnly(p.pythOracle), ReadOnly(p.switchboardOracle), ReadOnly(b.clock)], [3])
  }

  function Deposit(b: Compiler, pins: ExecutionPins, p: PlanInputs): Instruction {
    Instruction(
      p.solendProgramId,
      [Writable(p.sourceLiquidity), Writable(p.userCollateral), Writable(p.reserve), Writable(p.reserveLiquiditySupply),
       Writable(p.reserveCollateralMint), ReadOnly(p.lendingMarket),
       ReadOnly(b.authorityOf(p.lendingMarket, p.solendProgramId)), Writable(p.destinationDepositCollateral),
       Writable(p.obligation), AccountMeta(p.obligationOwner, true, true), ReadOnly(p.pythOracle),
       ReadOnly(p.switchboardOracle), AccountMeta(p.userTransferAuthority, false, true), ReadOnly(pins.tokenProgram)],
      [14] + ToLittleEndian(p.inputAmountRaw, 8))
  }

  function PlanInstructions(b: Compiler, pins: ExecutionPins, p: PlanInputs): seq<Instruction> {
    [SetComputeUnitLimit(pins, COMPUTE_UNIT_LIMIT), SetComputeUnitPrice(pins, COMPUTE_UNIT_PRICE_MICRO_LAMPORTS),
     RefreshReserve(b, p), Deposit(b, pins, p)]
  }

  function EmptySlots(n: nat): seq<Signature> {
    if n == 0 then [] else [DEFAULT_SIGNATURE] + EmptySlots(n - 1)
  }

  /** Zero amounts are refused; the obligation's owner pays, and every signature is empty. */
  function BuildUnsigned(b: Compiler, wire: Wire, pins: ExecutionPins, p: PlanInputs): Option<Transaction> {
    if p.inputAmountRaw == 0 then None
    else
      var message := b.compile(PlanInstructions(b, pins, p), p.obligationOwner);
      var tx := Transaction(EmptySlots(message.numRequiredSignatures), message);
      if wire.encode(tx).None? then None else Some(tx)
  }

  // ---- What a message says --------------------------------------------------------------------

  /** An instruction with its indices resolved. */
  datatype Resolved = Resolved(program: PubkeyBytes, accounts: seq<PubkeyBytes>, data: bytes)

  predicate InRange(m: Message, ix: CompiledInstruction) {
    ix.programIdIndex < |m.accountKeys| && forall j :: 0 <= j < |ix.accounts| ==> ix.accounts[j] < |m.accountKeys|
  }

  /** Instruction k of the message is this one. */
  predicate Says(m: Message, k: nat, r: Resolved) {
    && k < |m.instructions| && InRange(m, m.instructions[k])
    && m.accountKeys[m.instructions[k].programIdIndex] == r.program && m.instructions[k].data == r.data
    && |m.instructions[k].accounts| == |r.accounts|
    && forall j :: 0 <= j < |r.accounts| ==> m.accountKeys[m.instructions[k].accounts[j]] == r.accounts[j]
  }

  predicate SaysAll(m: Message, rs: seq<Resolved>) {
    |m.instructions| == |rs| && forall k :: 0 <= k < |rs| ==> Says(m, k, rs[k])
  }

  function Keys(accounts: seq<AccountMeta>): (keys: seq<PubkeyBytes>)
    ensures |keys| == |accounts| && forall j :: 0 <= j < |keys| ==> keys[j] == accounts[j].key
  {
    if accounts == [] then [] else [accounts[0].key] + Keys(accounts[1..])
  }

  predicate OnlySigner(ixs: seq<Instruction>, payer: PubkeyBytes) {
    forall k, j :: 0 <= k < |ixs| && 0 <= j < |ixs[k].accounts| && ixs[k].accounts[j].signer ==>
      ixs[k].accounts[j].key == payer
  }

  /** What compilation promises: the message says the instructions, the payer comes first,
      one signature is required if nobody else signs, and there is no blockhash yet. */
  predicate Compiled(m: Message, ixs: seq<Instruction>, payer: PubkeyBytes) {
    && |m.instructions| == |ixs|
    && (forall k :: 0 <= k < |ixs| ==> Says(m, k, Resolved(ixs[k].program, Keys(ixs[k].accounts), ixs[k].data)))
    && |m.accountKeys| > 0 && m.accountKeys[0] == payer
    && (OnlySigner(ixs, payer) ==> m.numRequiredSignatures == 1) && m.recentBlockhash == ZERO_BLOCKHASH
  }

  // ---- The validator, in these terms ---------------------------------------------------------------

  /** The accounts of a deposit that the validator knows about. */
  predicate DepositAccounts(pins: ExecutionPins, wallet: PubkeyBytes, c: Canonical, accounts: seq<PubkeyBytes>) {
    && |accounts| == 14 && accounts[0] == c.sourceLiquidity && accounts[3] == c.reserveLiquiditySupply
    && accounts[9] == accounts[12] == wallet && accounts[13] == pins.tokenProgram
  }

  /** Four instructions: the reviewed compute budget, 400000 units at 50000 micro-lamports; a
      refresh of the reserve; and a deposit of the canonical amount. */
  predicate IsReviewedDeposit(pins: ExecutionPins, wallet: PubkeyBytes, c: Canonical, rs: seq<Resolved>) {
    && |rs| == 4
    && rs[0].program == rs[1].program == pins.computeBudget && rs[2].program == rs[3].program == pins.solendProgram
    && rs[0].data == [2] + ToLittleEndian(400_000, 4) && rs[1].data == [3] + ToLittleEndian(50_000, 8)
    && rs[2].data == [3] && rs[3].data == [14] + ToLittleEndian(c.inputAmountRaw, 8)
    && DepositAccounts(pins, wallet, c, rs[3].accounts)
  }

  /** A fresh transaction of this wallet alone: one required signature, its slot empty. */
  predicate AwaitsOnly(tx: Transaction, wallet: PubkeyBytes) {
    && tx.message.numRequiredSignatures == 1 && |tx.message.accountKeys| > 0 && tx.message.accountKeys[0] == wallet
    && |tx.signatures| == 1 && |tx.signatures[0]| == 64
    && forall i :: 0 <= i < 64 ==> tx.signatures[0][i] == 0
  }

  lemma {:induction false} ZerosIff(n: nat, b: bytes)
    ensures b == Zeros(n) <==> |b| == n && forall i :: 0 <= i < n ==> b[i] == 0
  {
    if n > 0 {
      if |b| == n {
        ZerosIff(n - 1, b[1..]);
        assert b == [b[0]] + b[1..];
      }
    }
  }

  lemma ReviewedData()
    ensures REVIEWED_LIMIT_DATA == [2] + ToLittleEndian(400_000, 4)
    ensures REVIEWED_PRICE_DATA == [3] + ToLittleEndian(50_000, 8)
  {
    LimitBytes();
    PriceBytes();
  }

  lemma LimitBytes()
    ensures ToLittleEndian(400_000, 4) == [0x80, 0x1a, 0x06, 0]
  {
    assert ToLittleEndian(6, 2) == [6, 0];
  }

  lemma PriceBytes()
    ensures ToLittleEndian(50_000, 8) == [0x50, 0xc3, 0, 0, 0, 0, 0, 0]
  {
    assert ToLittleEndian(0, 6) == [0, 0, 0, 0, 0, 0] by {
      assert ToLittleEndian(0, 3) == [0, 0, 0];
    }
  }

  /** Nine bytes are the tag and an amount exactly when they carry it. */
  lemma DepositDataIff(data: bytes, amount: u64)
    ensures
      |data| == 9 && data[0] == 14 && LittleEndian(data[1..9]) == amount <==> data == [14] + ToLittleEndian(amount, 8)
  {
    if |data| == 9 && data[0] == 14 && LittleEndian(data[1..9]) == amount {
      CarriedIsWritten(data[1..9], amount);
      assert data == [data[0]] + data[1..9];
    }
    if data == [14] + ToLittleEndian(amount, 8) {
      assert data[1..9] == ToLittleEndian(amount, 8);
      AmountRoundTrip(amount);
    }
  }

  lemma AmountRoundTrip(amount: u64)
    ensures LittleEndian(ToLittleEndian(amount, 8)) == amount
  {
    WordWidths();
    LittleEndianRoundTrip(amount, 8);
  }

  lemma CarriedIsWritten(b: bytes, amount: u64)
    requires |b| == 8 && LittleEndian(b) == amount
    ensures b == ToLittleEndian(amount, 8)
  {
    AmountRoundTrip(amount);
    LittleEndianInjective(b, ToLittleEndian(amount, 8));
  }

  lemma {:induction false} LittleEndianInjective(a: bytes, b: bytes)
    requires |a| == |b| && LittleEndian(a) == LittleEndian(b)
    ensures a == b
  {
    if a != [] {
      var x, y := LittleEndian(a[1..]), LittleEndian(b[1..]);
      assert (a[0] + 256 * x) % 256 == a[0] && (b[0] + 256 * y) % 256 == b[0];
      LittleEndianInjective(a[1..], b[1..]);
      assert a == [a[0]] + a[1..] && b == [b[0]] + b[1..];
    }
  }

  function KeysAt(m: Message, accounts: seq<u8>): (keys: seq<PubkeyBytes>)
    requires forall j :: 0 <= j < |accounts| ==> accounts[j] < |m.accountKeys|
    ensures |keys| == |accounts| && forall j :: 0 <= j < |keys| ==> keys[j] == m.accountKeys[accounts[j]]
  {
    if accounts == [] then [] else [m.accountKeys[accounts[0]]] + KeysAt(m, accounts[1..])
  }

  function ResolvedAt(m: Message, k: nat): (r: Resolved)
    requires k < |m.instructions| && InRange(m, m.instructions[k])
    ensures Says(m, k, r)
  {
    var ix := m.instructions[k];
    Resolved(m.accountKeys[ix.programIdIndex], KeysAt(m, ix.accounts), ix.data)
  }

  lemma EnvelopeIff(wire: Wire, pins: ExecutionPins, tx: Transaction, wallet: PubkeyBytes, c: Canonical)
    ensures
      EnvelopeAccepted(wire, pins, tx, wallet, c) <==>
        && c.solendProgramId == pins.solendProgram && c.inputMint == pins.usdcMint && c.inputAmountRaw > 0
        && wire.messageBytes(tx.message.(recentBlockhash := ZERO_BLOCKHASH)) == c.expectedMessageBytes
        && |tx.message.instructions| == 4 && AwaitsOnly(tx, wallet)
  {
    if |tx.signatures| == 1 {
      ZerosIff(64, tx.signatures[0]);
    }
  }

  lemma ProgramsIff(pins: ExecutionPins, m: Message)
    requires |m.instructions| == 4 && forall k :: 0 <= k < 4 ==> InRange(m, m.instructions[k])
    ensures
      var rs := [ResolvedAt(m, 0), ResolvedAt(m, 1), ResolvedAt(m, 2), ResolvedAt(m, 3)];
      ProgramsAccepted(pins, m) <==>
        && rs[0].program == rs[1].program == pins.computeBudget && rs[2].program == rs[3].program == pins.solendProgram
        && rs[0].data == [2] + ToLittleEndian(400_000, 4) && rs[1].data == [3] + ToLittleEndian(50_000, 8)
        && rs[2].data == [3]
  {
    ReviewedData();
  }

  lemma DepositIff(pins: ExecutionPins, m: Message, wallet: PubkeyBytes, c: Canonical)
    requires |m.instructions| == 4 && InRange(m, m.instructions[3])
    ensures
      DepositAccepted(pins, m, wallet, c) <==>
        && ResolvedAt(m, 3).data == [14] + ToLittleEndian(c.inputAmountRaw, 8)
        && DepositAccounts(pins, wallet, c, ResolvedAt(m, 3).accounts)
  {
    DepositDataIff(m.instructions[3].data, c.inputAmountRaw);
  }

  lemma SaysOnlyThis(m: Message, rs: seq<Resolved>)
    requires SaysAll(m, rs) && |rs| == 4
    ensures |m.instructions| == 4 && forall k :: 0 <= k < 4 ==> InRange(m, m.instructions[k])
    ensures rs == [ResolvedAt(m, 0), ResolvedAt(m, 1), ResolvedAt(m, 2), ResolvedAt(m, 3)]
  {
    forall k | 0 <= k < 4 ensures InRange(m, m.instructions[k]) && rs[k] == ResolvedAt(m, k) {
      assert Says(m, k, rs[k]);
      assert rs[k].accounts == ResolvedAt(m, k).accounts;
    }
  }

  lemma AcceptedInRange(pins: ExecutionPins, m: Message)
    requires ProgramsAccepted(pins, m) && AccountsResolve(m)
    ensures forall k :: 0 <= k < 4 ==> InRange(m, m.instructions[k])
  {
    ProgramsResolve(pins, m);
  }

  /** Which transactions are accepted: those whose message, blockhash aside, is the expected
      one, that await the wallet's signature alone, and that say a reviewed deposit of the
      canonical amount between the canonical accounts. */
  lemma AcceptedIff(wire: Wire, pins: ExecutionPins, tx: Transaction, wallet: PubkeyBytes, c: Canonical)
    ensures
      Accepted(wire, pins, tx, wallet, c) <==>
        && c.solendProgramId == pins.solendProgram && c.inputMint == pins.usdcMint && c.inputAmountRaw > 0
        && wire.messageBytes(tx.message.(recentBlockhash := ZERO_BLOCKHASH)) == c.expectedMessageBytes
        && AwaitsOnly(tx, wallet)
        && exists rs :: SaysAll(tx.message, rs) && IsReviewedDeposit(pins, wallet, c, rs)
  {
    var m := tx.message;
    EnvelopeIff(wire, pins, tx, wallet, c);
    if Accepted(wire, pins, tx, wallet, c) {
      AcceptedIsReviewed(pins, m, wallet, c);
    }
    if rs :| SaysAll(m, rs) && IsReviewedDeposit(pins, wallet, c, rs) {
      ReviewedIsAccepted(pins, m, wallet, c, rs);
    }
  }

  lemma AcceptedIsReviewed(pins: ExecutionPins, m: Message, wallet: PubkeyBytes, c: Canonical)
    requires ProgramsAccepted(pins, m) && DepositAccepted(pins, m, wallet, c) && AccountsResolve(m)
    ensures exists rs :: SaysAll(m, rs) && IsReviewedDeposit(pins, wallet, c, rs)
  {
    AcceptedInRange(pins, m);
    ProgramsIff(pins, m);
    DepositIff(pins, m, wallet, c);
    var rs := [ResolvedAt(m, 0), ResolvedAt(m, 1), ResolvedAt(m, 2), ResolvedAt(m, 3)];
    assert SaysAll(m, rs) && IsReviewedDeposit(pins, wallet, c, rs);
  }

  lemma ReviewedIsAccepted(pins: ExecutionPins, m: Message, wallet: PubkeyBytes, c: Canonical, rs: seq<Resolved>)
    requires SaysAll(m, rs) && IsReviewedDeposit(pins, wallet, c, rs)
    ensures ProgramsAccepted(pins, m) && DepositAccepted(pins, m, wallet, c) && AccountsResolve(m)
  {
    SaysOnlyThis(m, rs);
    ProgramsIff(pins, m);
    DepositIff(pins, m, wallet, c);
  }

  // ---- Built is accepted, accepted was built ----------------------------------------------------------

  function CanonicalOf(wire: Wire, p: PlanInputs, unsigned: Transaction): Canonical {
    Canonical(p.solendProgramId, p.inputMint, p.inputAmountRaw, p.sourceLiquidity, p.reserveLiquiditySupply,
              wire.messageBytes(unsigned.message))
  }

  /** A plan of the validator: pinned program, mint and token program, a positive amount, and
      the wallet on both sides. */
  predicate PlanFor(pins: ExecutionPins, wallet: PubkeyBytes, p: PlanInputs) {
    && p.solendProgramId == pins.solendProgram && p.inputMint == pins.usdcMint && p.tokenProgram == pins.tokenProgram
    && p.inputAmountRaw > 0 && p.obligationOwner == p.userTransferAuthority == wallet
  }

  function Bare(ixs: seq<Instruction>): (rs: seq<Resolved>)
    ensures |rs| == |ixs|
    ensures forall k :: 0 <= k < |rs| ==> rs[k] == Resolved(ixs[k].program, Keys(ixs[k].accounts), ixs[k].data)
  {
    if ixs == [] then []
    else [Resolved(ixs[0].program, Keys(ixs[0].accounts), ixs[0].data)] + Bare(ixs[1..])
  }

  lemma DepositIsKnown(b: Compiler, pins: ExecutionPins, wallet: PubkeyBytes, p: PlanInputs, c: Canonical)
    requires PlanFor(pins, wallet, p)
    requires c.sourceLiquidity == p.sourceLiquidity && c.reserveLiquiditySupply == p.reserveLiquiditySupply
    ensures DepositAccounts(pins, wallet, c, Keys(Deposit(b, pins, p).accounts))
  {
  }

  lemma OnlyOwnerSigns(b: Compiler, pins: ExecutionPins, p: PlanInputs)
    requires p.obligationOwner == p.userTransferAuthority
    ensures OnlySigner(PlanInstructions(b, pins, p), p.obligationOwner)
  {
    var ixs := PlanInstructions(b, pins, p);
    assert ixs[0].accounts == [] && ixs[1].accounts == [];
    assert forall j :: 0 <= j < 4 ==> !ixs[2].accounts[j].signer;
  }

  lemma PlanIsReviewedDeposit(b: Compiler, wire: Wire, pins: ExecutionPins, wallet: PubkeyBytes, p: PlanInputs,
                              unsigned: Transaction)
    requires PlanFor(pins, wallet, p)
    ensures IsReviewedDeposit(pins, wallet, CanonicalOf(wire, p, unsigned), Bare(PlanInstructions(b, pins, p)))
  {
    DepositIsKnown(b, pins, wallet, p, CanonicalOf(wire, p, unsigned));
    var ixs, rs := PlanInstructions(b, pins, p), Bare(PlanInstructions(b, pins, p));
    assert rs[3].accounts == Keys(Deposit(b, pins, p).accounts);
  }

  /** The deposit takes its accounts in the program's order, and the reserve it deposits into
      is the one refreshed just before, with the same oracles. */
  lemma DepositFollowsPlan(b: Compiler, pins: ExecutionPins, p: PlanInputs)
    ensures
      var deposit, refresh := Keys(Deposit(b, pins, p).accounts), Keys(RefreshReserve(b, p).accounts);
      && deposit == [p.sourceLiquidity, p.userCollateral, p.reserve, p.reserveLiquiditySupply, p.reserveCollateralMint,
                     p.lendingMarket, b.authorityOf(p.lendingMarket, p.solendProgramId),
                     p.destinationDepositCollateral, p.obligation, p.obligationOwner, p.pythOracle, p.switchboardOracle,
                     p.userTransferAuthority, pins.tokenProgram]
      && refresh == [deposit[2], deposit[10], deposit[11], b.clock]
      && RefreshReserve(b, p).program == Deposit(b, pins, p).program == p.solendProgramId
  {
  }

  /** What the builder makes of a plan, with this blockhash. */
  function WithBlockhash(tx: Transaction, blockhash: bytes): Transaction {
    tx.(message := tx.message.(recentBlockhash := blockhash))
  }

  lemma BlockhashIsNotSaid(m: Message, blockhash: bytes, rs: seq<Resolved>)
    ensures SaysAll(m.(recentBlockhash := blockhash), rs) <==> SaysAll(m, rs)
  {
    if SaysAll(m, rs) {
      forall k | 0 <= k < |rs| ensures Says(m.(recentBlockhash := blockhash), k, rs[k]) {
        assert Says(m, k, rs[k]);
      }
    }
    if SaysAll(m.(recentBlockhash := blockhash), rs) {
      forall k | 0 <= k < |rs| ensures Says(m, k, rs[k]) {
        assert Says(m.(recentBlockhash := blockhash), k, rs[k]);
      }
    }
  }

  /** What the builder builds for a validated plan is accepted, as built and with any fresh
      blockhash. */
  lemma BuiltIsAccepted(b: Compiler, wire: Wire, pins: ExecutionPins, wallet: PubkeyBytes, p: PlanInputs,
                        blockhash: bytes)
    requires PlanFor(pins, wallet, p) && BuildUnsigned(b, wire, pins, p).Some?
    requires
      var ixs := PlanInstructions(b, pins, p);
      Compiled(b.compile(ixs, p.obligationOwner), ixs, p.obligationOwner)
    ensures
      var unsigned := BuildUnsigned(b, wire, pins, p).value;
      && Accepted(wire, pins, unsigned, wallet, CanonicalOf(wire, p, unsigned))
      && Accepted(wire, pins, WithBlockhash(unsigned, blockhash), wallet, CanonicalOf(wire, p, unsigned))
  {
    var unsigned := BuildUnsigned(b, wire, pins, p).value;
    var m, rs := unsigned.message, Bare(PlanInstructions(b, pins, p));
    PlanIsReviewedDeposit(b, wire, pins, wallet, p, unsigned);
    OnlyOwnerSigns(b, pins, p);
    assert SaysAll(m, rs);
    ZerosIff(64, DEFAULT_SIGNATURE);
    assert EmptySlots(1) == [DEFAULT_SIGNATURE];
    BlockhashIsNotSaid(m, blockhash, rs);
    var dated := WithBlockhash(unsigned, blockhash);
    assert dated.message.(recentBlockhash := ZERO_BLOCKHASH) == m == m.(recentBlockhash := ZERO_BLOCKHASH);
    AcceptedIff(wire, pins, unsigned, wallet, CanonicalOf(wire, p, unsigned));
    AcceptedIff(wire, pins, dated, wallet, CanonicalOf(wire, p, unsigned));
  }

  /** And nothing else is: for a validated plan the validator accepts exactly the builder's
      transaction, whatever its blockhash, awaiting its signature. */
  lemma AcceptedIffBuilt(b: Compiler, wire: Wire, pins: ExecutionPins, wallet: PubkeyBytes, p: PlanInputs,
                         tx: Transaction)
    requires PlanFor(pins, wallet, p) && BuildUnsigned(b, wire, pins, p).Some? && Injective(wire)
    requires
      var ixs := PlanInstructions(b, pins, p);
      Compiled(b.compile(ixs, p.obligationOwner), ixs, p.obligationOwner)
    ensures
      var unsigned := BuildUnsigned(b, wire, pins, p).value;
      Accepted(wire, pins, tx, wallet, CanonicalOf(wire, p, unsigned)) <==>
        exists blockhash :: tx == WithBlockhash(unsigned, blockhash)
  {
    var unsigned := BuildUnsigned(b, wire, pins, p).value;
    if Accepted(wire, pins, tx, wallet, CanonicalOf(wire, p, unsigned)) {
      AcceptedIsBuilders(wire, tx.message, unsigned.message);
      BuiltIsAccepted(b, wire, pins, wallet, p, []);
      assert tx == WithBlockhash(unsigned, tx.message.recentBlockhash);
    }
    if blockhash :| tx == WithBlockhash(unsigned, blockhash) {
      BuiltIsAccepted(b, wire, pins, wallet, p, blockhash);
    }
  }
}
