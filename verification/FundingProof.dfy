// Checking that an observed transaction really paid for one funding row.
module FundingProof {
  import opened Prelude
  import opened Codecs
  import opened WatchRules
  import opened StateStore

  const USDC_MINT := "EPjFWdd5AufqSSqeM2qN1xzybapC8G4wEGGkZwyTDt1v"
  const USDC_DECIMALS: u8 := 6

  datatype Confirmation = ConfirmedLevel | FinalizedLevel

  datatype TransferChecked = TransferChecked(
    source: string, destination: string, mint: string, authority: string, amountRaw: u64, decimals: u8)

  datatype TokenBalance = TokenBalance(account: string, mint: string, owner: string, decimals: u8, amountRaw: u64)

  datatype Observation = Observation(
    slot: u64,
    blockTimeMs: Option<i64>,
    confirmation: Confirmation,
    succeeded: bool,
    signers: seq<string>,
    memos: seq<string>,
    transfers: seq<TransferChecked>,
    preBalances: seq<TokenBalance>,
    postBalances: seq<TokenBalance>)

  datatype ProofError =
    | OnChainFailure
    | MemoMismatch
    | FunderNotSigner
    | StoredAtaMismatch
    | TransferMissing
    | WrongMint
    | SourceAtaMismatch
    | ReceivingAtaMismatch
    | TransferAuthorityMismatch
    | TransferAmountMismatch
    | TokenDecimalsMismatch
    | SourceBalanceMissing
    | SourceOwnerMismatch
    | SourceDeltaMismatch
    | ReceivingBalanceMissing
    | ReceivingOwnerMismatch
    | ReceivingDeltaMismatch

  type Checked = Result<(), ProofError>

  function Check(holds: bool, error: ProofError): Checked {
    if holds then Ok(()) else Err(error)
  }

  function Memo(terms: FundingTerms): string {
    "claw:w5h:" + terms.intentId + ":" + terms.canonicalRuleHashHex
  }

  predicate IsExactTransfer(t: TransferChecked, terms: FundingTerms) {
    && t.source == terms.userUsdcAta
    && t.destination == terms.controlledUsdcAta
    && t.mint == USDC_MINT
    && t.authority == terms.userWallet
    && t.amountRaw == terms.amountRaw
    && t.decimals == USDC_DECIMALS
  }

  predicate HasExactTransfer(transfers: seq<TransferChecked>, terms: FundingTerms) {
    exists i :: 0 <= i < |transfers| && IsExactTransfer(transfers[i], terms)
  }

  function FindTransfer(transfers: seq<TransferChecked>, terms: FundingTerms): (found: bool)
    ensures found <==> HasExactTransfer(transfers, terms)
  {
    if transfers == [] then false
    else if IsExactTransfer(transfers[0], terms) then true
    else
      assert forall i :: 0 < i < |transfers| ==> transfers[i] == transfers[1..][i - 1];
      FindTransfer(transfers[1..], terms)
  }

  /** Entry i is the first one of this account. */
  predicate IsFirstOf(balances: seq<TokenBalance>, account: string, i: nat) {
    i < |balances| && balances[i].account == account && forall j :: 0 <= j < i ==> balances[j].account != account
  }

  /** The first balance entry of an account. */
  function FindBalance(balances: seq<TokenBalance>, account: string): (r: Option<TokenBalance>)
    ensures r.Some? ==> r.value in balances && r.value.account == account
    ensures r.None? <==> forall b :: b in balances ==> b.account != account
  {
    if balances == [] then None
    else if balances[0].account == account then Some(balances[0])
    else FindBalance(balances[1..], account)
  }

  predicate StoredAtasDerive(lib: Library, terms: FundingTerms) {
    var mint, user, controlled :=
      lib.parseKey(USDC_MINT), lib.parseKey(terms.userWallet), lib.parseKey(terms.controlledWallet);
    && mint.Some? && user.Some? && controlled.Some?
    && lib.keyText(lib.tokenAccount(user.value, mint.value)) == terms.userUsdcAta
    && lib.keyText(lib.tokenAccount(controlled.value, mint.value)) == terms.controlledUsdcAta
  }

  function ValidateBalance(balance: TokenBalance, owner: string, source: bool): Checked {
    if balance.mint != USDC_MINT then Err(WrongMint)
    else if balance.decimals != USDC_DECIMALS then Err(TokenDecimalsMismatch)
    else if balance.owner != owner then Err(if source then SourceOwnerMismatch else ReceivingOwnerMismatch)
    else Ok(())
  }

  function DiagnoseTransfer(transfers: seq<TransferChecked>, terms: FundingTerms): ProofError {
    if transfers == [] then TransferMissing
    else
      var t := transfers[0];
      if t.mint != USDC_MINT then WrongMint
      else if t.source != terms.userUsdcAta then SourceAtaMismatch
      else if t.destination != terms.controlledUsdcAta then ReceivingAtaMismatch
      else if t.authority != terms.userWallet then TransferAuthorityMismatch
      else if t.amountRaw != terms.amountRaw then TransferAmountMismatch
      else if t.decimals != USDC_DECIMALS then TokenDecimalsMismatch
      else TransferMissing
  }

  function OrMissing<T>(found: Option<T>, error: ProofError): Result<T, ProofError> {
    match found
    case Some(value) => Ok(value)
    case None => Err(error)
  }

  function VerifySource(tx: Observation, terms: FundingTerms): Checked {
    var pre :- OrMissing(FindBalance(tx.preBalances, terms.userUsdcAta), SourceBalanceMissing);
    var post :- OrMissing(FindBalance(tx.postBalances, terms.userUsdcAta), SourceBalanceMissing);
    var _ :- ValidateBalance(pre, terms.userWallet, true);
    var _ :- ValidateBalance(post, terms.userWallet, true);
    var _ :- Check(pre.amountRaw >= post.amountRaw, SourceDeltaMismatch);
    Check(pre.amountRaw - post.amountRaw == terms.amountRaw, SourceDeltaMismatch)
  }

  /** The receiving account may be new: no balance before counts as zero. */
  function VerifyReceiving(tx: Observation, terms: FundingTerms): Checked {
    var before := FindBalance(tx.preBalances, terms.controlledUsdcAta);
    var post :- OrMissing(FindBalance(tx.postBalances, terms.controlledUsdcAta), ReceivingBalanceMissing);
    var _ :- if before.Some? then ValidateBalance(before.value, terms.controlledWallet, false) else Ok(());
    var _ :- ValidateBalance(post, terms.controlledWallet, false);
    var pre := if before.Some? then before.value.amountRaw else 0;
    var _ :- Check(post.amountRaw >= pre, ReceivingDeltaMismatch);
    Check(post.amountRaw - pre == terms.amountRaw, ReceivingDeltaMismatch)
  }

  function VerifyFundingTransaction(lib: Library, tx: Observation, terms: FundingTerms): Checked {
    var _ :- Check(tx.succeeded, OnChainFailure);
    var _ :- Check(Memo(terms) in tx.memos, MemoMismatch);
    var _ :- Check(terms.userWallet in tx.signers, FunderNotSigner);
    var _ :- Check(StoredAtasDerive(lib, terms), StoredAtaMismatch);
    var _ :- Check(FindTransfer(tx.transfers, terms), DiagnoseTransfer(tx.transfers, terms));
    var _ :- VerifySource(tx, terms);
    VerifyReceiving(tx, terms)
  }

  lemma {:induction false} FindsTheFirst(balances: seq<TokenBalance>, account: string, i: nat)
    requires IsFirstOf(balances, account, i)
    ensures FindBalance(balances, account) == Some(balances[i])
  {
    if i > 0 {
      assert forall j :: 0 <= j < i ==> balances[1..][j] == balances[j + 1];
      FindsTheFirst(balances[1..], account, i - 1);
    }
  }

  // ---- What a passed proof means ---------------------------------------------------

  predicate IsUsdcOf(balance: TokenBalance, owner: string) {
    balance.mint == USDC_MINT && balance.decimals == USDC_DECIMALS && balance.owner == owner
  }

  /** The recorded balance of an account moved by exactly `delta`; an account
      absent before counts as empty only on the receiving side. */
  predicate MovedBy(tx: Observation, account: string, owner: string, delta: int, mayBeNew: bool) {
    var pre, post := FindBalance(tx.preBalances, account), FindBalance(tx.postBalances, account);
    && post.Some? && IsUsdcOf(post.value, owner)
    && (pre.Some? || mayBeNew)
    && (pre.Some? ==> IsUsdcOf(pre.value, owner))
    && post.value.amountRaw == (if pre.Some? then pre.value.amountRaw else 0) + delta
  }

  /** The funding row was paid: the whole conjunction a payment has to meet. */
  predicate Paid(lib: Library, tx: Observation, terms: FundingTerms) {
    && tx.succeeded
    && Memo(terms) in tx.memos
    && terms.userWallet in tx.signers
    && StoredAtasDerive(lib, terms)
    && HasExactTransfer(tx.transfers, terms)
    && MovedBy(tx, terms.userUsdcAta, terms.userWallet, -(terms.amountRaw as int), false)
    && MovedBy(tx, terms.controlledUsdcAta, terms.controlledWallet, terms.amountRaw, true)
  }

  lemma SourceIff(tx: Observation, terms: FundingTerms)
    ensures VerifySource(tx, terms).Ok? <==>
              MovedBy(tx, terms.userUsdcAta, terms.userWallet, -(terms.amountRaw as int), false)
  {
  }

  lemma ReceivingIff(tx: Observation, terms: FundingTerms)
    ensures VerifyReceiving(tx, terms).Ok? <==>
              MovedBy(tx, terms.controlledUsdcAta, terms.controlledWallet, terms.amountRaw, true)
  {
  }

  /** The chain of early returns accepts exactly the paid rows. */
  lemma VerifiedIffPaid(lib: Library, tx: Observation, terms: FundingTerms)
    ensures VerifyFundingTransaction(lib, tx, terms).Ok? <==> Paid(lib, tx, terms)
  {
    SourceIff(tx, terms);
    ReceivingIff(tx, terms);
  }

  /** Without an exact transfer the diagnosis names a field in which the first
      transfer really differs, and says "missing" only when there is none. */
  lemma DiagnosisIsTrue(transfers: seq<TransferChecked>, terms: FundingTerms)
    requires !HasExactTransfer(transfers, terms)
    ensures
      match DiagnoseTransfer(transfers, terms)
      case TransferMissing => transfers == []
      case WrongMint => transfers != [] && transfers[0].mint != USDC_MINT
      case SourceAtaMismatch => transfers != [] && transfers[0].source != terms.userUsdcAta
      case ReceivingAtaMismatch => transfers != [] && transfers[0].destination != terms.controlledUsdcAta
      case TransferAuthorityMismatch => transfers != [] && transfers[0].authority != terms.userWallet
      case TransferAmountMismatch => transfers != [] && transfers[0].amountRaw != terms.amountRaw
      case TokenDecimalsMismatch => transfers != [] && transfers[0].decimals != USDC_DECIMALS
      case _ => false
  {
    if transfers != [] {
      assert !IsExactTransfer(transfers[0], terms);
    }
  }

  /** The one transfer that pays for a row: its amount of USDC, in its six decimals, from the
      user's account to the controlled one, authorised by the user's wallet. */
  function ExpectedTransfer(terms: FundingTerms): TransferChecked {
    TransferChecked(terms.userUsdcAta, terms.controlledUsdcAta, "EPjFWdd5AufqSSqeM2qN1xzybapC8G4wEGGkZwyTDt1v",
                    terms.userWallet, terms.amountRaw, 6)
  }

  /** Only that transfer counts, wherever it stands among the others. */
  lemma TransferIff(transfers: seq<TransferChecked>, terms: FundingTerms)
    ensures HasExactTransfer(transfers, terms) <==> ExpectedTransfer(terms) in transfers
  {
    if ExpectedTransfer(terms) in transfers {
      var i :| 0 <= i < |transfers| && transfers[i] == ExpectedTransfer(terms);
      assert IsExactTransfer(transfers[i], terms);
    }
  }

  /** The stored accounts are the USDC accounts derived for the two stored wallets. */
  lemma AtasDeriveIff(lib: Library, terms: FundingTerms, mint: PubkeyBytes, user: PubkeyBytes, controlled: PubkeyBytes)
    requires lib.parseKey("EPjFWdd5AufqSSqeM2qN1xzybapC8G4wEGGkZwyTDt1v") == Some(mint)
    requires lib.parseKey(terms.userWallet) == Some(user) && lib.parseKey(terms.controlledWallet) == Some(controlled)
    ensures
      StoredAtasDerive(lib, terms) <==>
        [terms.userUsdcAta, terms.controlledUsdcAta]
        == [lib.keyText(lib.tokenAccount(user, mint)), lib.keyText(lib.tokenAccount(controlled, mint))]
  {
    var stored := [terms.userUsdcAta, terms.controlledUsdcAta];
    var derived := [lib.keyText(lib.tokenAccount(user, mint)), lib.keyText(lib.tokenAccount(controlled, mint))];
    if stored == derived {
      assert stored[0] == derived[0] && stored[1] == derived[1];
    }
  }

  /** An unpaid row is told the first thing that is missing. */
  lemma UnpaidTellsWhy(lib: Library, tx: Observation, terms: FundingTerms)
    ensures VerifyFundingTransaction(lib, tx, terms) == Err(OnChainFailure) <==> !tx.succeeded
    ensures
      VerifyFundingTransaction(lib, tx, terms) == Err(MemoMismatch) <==> tx.succeeded && Memo(terms) !in tx.memos
    ensures
      VerifyFundingTransaction(lib, tx, terms) == Err(FunderNotSigner) <==>
        tx.succeeded && Memo(terms) in tx.memos && terms.userWallet !in tx.signers
    ensures
      VerifyFundingTransaction(lib, tx, terms) == Err(StoredAtaMismatch) <==>
        tx.succeeded && Memo(terms) in tx.memos && terms.userWallet in tx.signers && !StoredAtasDerive(lib, terms)
    ensures
      tx.succeeded && Memo(terms) in tx.memos && terms.userWallet in tx.signers && StoredAtasDerive(lib, terms) ==>
        match VerifyFundingTransaction(lib, tx, terms)
        case Ok(_) => Paid(lib, tx, terms)
        case Err(e) =>
          if ExpectedTransfer(terms) !in tx.transfers then e == DiagnoseTransfer(tx.transfers, terms)
          else SourceIsWrong(tx, terms, e) || ReceivingIsWrong(tx, terms, e)
  {
    TransferIff(tx.transfers, terms);
    VerifiedIffPaid(lib, tx, terms);
    SourceTellsWhy(tx, terms);
    ReceivingTellsWhy(tx, terms);
  }

  function Held(balances: seq<TokenBalance>, account: string): int {
    var entry := FindBalance(balances, account); if entry.Some? then entry.value.amountRaw else 0
  }

  /** Some entry of the account differs in this respect. */
  predicate Differs(tx: Observation, account: string, p: TokenBalance -> bool) {
    var pre, post := FindBalance(tx.preBalances, account), FindBalance(tx.postBalances, account);
    (pre.Some? && p(pre.value)) || (post.Some? && p(post.value))
  }

  /** What each error about the paying account says of the transaction. */
  predicate SourceIsWrong(tx: Observation, terms: FundingTerms, e: ProofError) {
    var account := terms.userUsdcAta;
    match e
    case SourceBalanceMissing =>
      FindBalance(tx.preBalances, account).None? || FindBalance(tx.postBalances, account).None?
    case WrongMint => Differs(tx, account, (b: TokenBalance) => b.mint != USDC_MINT)
    case TokenDecimalsMismatch => Differs(tx, account, (b: TokenBalance) => b.decimals != 6)
    case SourceOwnerMismatch => Differs(tx, account, (b: TokenBalance) => b.owner != terms.userWallet)
    case SourceDeltaMismatch => Held(tx.preBalances, account) - Held(tx.postBalances, account) != terms.amountRaw
    case _ => false
  }

  /** And about the receiving account. */
  predicate ReceivingIsWrong(tx: Observation, terms: FundingTerms, e: ProofError) {
    var account := terms.controlledUsdcAta;
    match e
    case ReceivingBalanceMissing => FindBalance(tx.postBalances, account).None?
    case WrongMint => Differs(tx, account, (b: TokenBalance) => b.mint != USDC_MINT)
    case TokenDecimalsMismatch => Differs(tx, account, (b: TokenBalance) => b.decimals != 6)
    case ReceivingOwnerMismatch => Differs(tx, account, (b: TokenBalance) => b.owner != terms.controlledWallet)
    case ReceivingDeltaMismatch => Held(tx.postBalances, account) - Held(tx.preBalances, account) != terms.amountRaw
    case _ => false
  }

  lemma SourceTellsWhy(tx: Observation, terms: FundingTerms)
    ensures VerifySource(tx, terms).Err? ==> SourceIsWrong(tx, terms, VerifySource(tx, terms).error)
  {
  }

  lemma ReceivingTellsWhy(tx: Observation, terms: FundingTerms)
    ensures VerifyReceiving(tx, terms).Err? ==> ReceivingIsWrong(tx, terms, VerifyReceiving(tx, terms).error)
  {
  }

  /** In which respect a transfer differs from the expected one. */
  predicate TransferDiffers(t: TransferChecked, terms: FundingTerms, e: ProofError) {
    var expected := ExpectedTransfer(terms);
    match e
    case WrongMint => t.mint != expected.mint
    case SourceAtaMismatch => t.source != expected.source
    case ReceivingAtaMismatch => t.destination != expected.destination
    case TransferAuthorityMismatch => t.authority != expected.authority
    case TransferAmountMismatch => t.amountRaw != expected.amountRaw
    case TokenDecimalsMismatch => t.decimals != expected.decimals
    case _ => false
  }

  /** In which order they are looked at. */
  function DiagnosisTurn(e: ProofError): nat {
    match e
    case WrongMint => 0
    case SourceAtaMismatch => 1
    case ReceivingAtaMismatch => 2
    case TransferAuthorityMismatch => 3
    case TransferAmountMismatch => 4
    case _ => 5
  }

  /** The diagnosis is the first respect in which the first transfer differs. */
  lemma DiagnosisIsFirstDifference(transfers: seq<TransferChecked>, terms: FundingTerms)
    requires transfers != [] && !HasExactTransfer(transfers, terms)
    ensures
      var d := DiagnoseTransfer(transfers, terms);
      TransferDiffers(transfers[0], terms, d)
      && forall e :: TransferDiffers(transfers[0], terms, e) ==> DiagnosisTurn(d) <= DiagnosisTurn(e)
  {
    assert !IsExactTransfer(transfers[0], terms);
  }

  // ---- One payment, two rows -------------------------------------------------------

  /** Two rows on one token account that the same payment proves agree on the
      payer and the amount, and the payment carries the memo of each. */
  lemma SamePaymentSameParties(lib: Library, tx: Observation, a: FundingTerms, b: FundingTerms)
    requires VerifyFundingTransaction(lib, tx, a).Ok? && VerifyFundingTransaction(lib, tx, b).Ok?
    requires a.userUsdcAta == b.userUsdcAta
    ensures a.userWallet == b.userWallet && a.amountRaw == b.amountRaw
    ensures Memo(a) in tx.memos && Memo(b) in tx.memos
  {
    VerifiedIffPaid(lib, tx, a);
    VerifiedIffPaid(lib, tx, b);
  }

  /** Whoever the payers are: a payment that proves two rows brings the receiving
      account the amount of one of them only once. */
  lemma SharedPaymentMovesOnce(lib: Library, tx: Observation, a: FundingTerms, b: FundingTerms)
    requires Paid(lib, tx, a) && Paid(lib, tx, b) && a.controlledUsdcAta == b.controlledUsdcAta
    ensures a.amountRaw == b.amountRaw && Memo(a) in tx.memos && Memo(b) in tx.memos
    ensures MovedBy(tx, a.controlledUsdcAta, a.controlledWallet, a.amountRaw, true)
  {
  }

  predicate SameParties(a: FundingTerms, b: FundingTerms) {
    && a.userWallet == b.userWallet && a.userUsdcAta == b.userUsdcAta
    && a.controlledWallet == b.controlledWallet && a.controlledUsdcAta == b.controlledUsdcAta
  }

  /** A payment is not exclusive: nothing but the memo separates two rows with the same
      parties and amount, so what pays for one pays for the other exactly when it
      carries the other's memo as well. */
  lemma PaysForBothIff(lib: Library, tx: Observation, a: FundingTerms, b: FundingTerms)
    requires Paid(lib, tx, a) && a.userUsdcAta == b.userUsdcAta && a.controlledUsdcAta == b.controlledUsdcAta
    ensures Paid(lib, tx, b) <==> SameParties(a, b) && a.amountRaw == b.amountRaw && Memo(b) in tx.memos
  {
  }

  function Balance(account: string, owner: string, amountRaw: u64): TokenBalance {
    TokenBalance(account, USDC_MINT, owner, USDC_DECIMALS, amountRaw)
  }

  /** One transfer with two memos. */
  function SharedPayment(a: FundingTerms, b: FundingTerms): Observation {
    Observation(
      0, None, FinalizedLevel, true, [a.userWallet], [Memo(a), Memo(b)],
      [TransferChecked(a.userUsdcAta, a.controlledUsdcAta, USDC_MINT, a.userWallet, a.amountRaw, USDC_DECIMALS)],
      [Balance(a.userUsdcAta, a.userWallet, a.amountRaw), Balance(a.controlledUsdcAta, a.controlledWallet, 0)],
      [Balance(a.userUsdcAta, a.userWallet, 0), Balance(a.controlledUsdcAta, a.controlledWallet, a.amountRaw)])
  }

  /** The input that shows it: two rows of one wallet and amount, whatever their
      thresholds, are both proved by a single transfer of that amount. */
  lemma SharedPaymentPaysForBoth(lib: Library, a: FundingTerms, b: FundingTerms)
    requires StoredAtasDerive(lib, a) && a.userUsdcAta != a.controlledUsdcAta
    requires SameParties(a, b) && a.amountRaw == b.amountRaw
    ensures Paid(lib, SharedPayment(a, b), a) && Paid(lib, SharedPayment(a, b), b)
    ensures |SharedPayment(a, b).transfers| == 1
  {
    var tx := SharedPayment(a, b);
    assert IsExactTransfer(tx.transfers[0], a) && IsExactTransfer(tx.transfers[0], b);
    assert tx.preBalances[1..][0] == tx.preBalances[1] && tx.postBalances[1..][0] == tx.postBalances[1];
    assert tx.memos[0] == Memo(a) && tx.memos[1] == Memo(b) && tx.signers[0] == a.userWallet;
  }

  /** A memo names one intent and one rule: ids of equal length cannot run into the hash. */
  lemma MemoNamesIntent(a: FundingTerms, b: FundingTerms)
    requires |a.intentId| == |b.intentId| && Memo(a) == Memo(b)
    ensures a.intentId == b.intentId && a.canonicalRuleHashHex == b.canonicalRuleHashHex
  {
    var n := |"claw:w5h:"|;
    assert Memo(a)[n..n + |a.intentId|] == a.intentId;
    assert Memo(b)[n..n + |b.intentId|] == b.intentId;
    assert Memo(a)[n + |a.intentId| + 1..] == a.canonicalRuleHashHex;
    assert Memo(b)[n + |b.intentId| + 1..] == b.canonicalRuleHashHex;
  }

  /** So a payment with a single memo pays for one intent only. */
  lemma OneMemoPaysForOne(lib: Library, tx: Observation, a: FundingTerms, b: FundingTerms)
    requires Paid(lib, tx, a) && Paid(lib, tx, b) && |tx.memos| == 1 && |a.intentId| == |b.intentId|
    ensures a.intentId == b.intentId
  {
    MemoNamesIntent(a, b);
  }

  predicate RuleMatchesIntent(lib: Library, row: RuleRow, terms: FundingTerms) {
    && HexLower(row.rule.ruleId) == terms.intentId
    && terms.ruleIdHex == terms.intentId
    && Lower(HexLower(row.canonicalHash)) == Lower(terms.canonicalRuleHashHex)
    && row.rule.maxInputAmountRaw == terms.amountRaw
    && lib.keyText(row.rule.destination) == terms.controlledWallet
  }
}
