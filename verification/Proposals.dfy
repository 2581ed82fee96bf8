// Proposed intents: the exact decimal amount and the draft's admission checks.
module Proposals {
  import opened Prelude
  import opened Codecs
  import opened WatchRules

  const USDC_DECIMALS: nat := 6
  const RAW_PER_WHOLE: nat := 1_000_000

  datatype AmountError = Empty | Negative | InvalidChar | MultipleDots | TooManyDecimals | Overflow | Zero

  // ---- Decimal texts -------------------------------------------------------------------

  predicate AllDigits(s: string) {
    forall i :: 0 <= i < |s| ==> IsDigit(s[i])
  }

  function DigitValue(c: char): (d: nat)
    requires IsDigit(c)
    ensures d < 10
  {
    c as int - '0' as int
  }

  /** The number a digit string denotes; the empty string denotes zero. */
  function Num(s: string): nat
    requires AllDigits(s)
  {
    if s == "" then 0 else 10 * Num(s[..|s| - 1]) + DigitValue(s[|s| - 1])
  }

  function Padding(n: nat): (s: string)
    ensures |s| == n && AllDigits(s)
  {
    if n == 0 then "" else Padding(n - 1) + "0"
  }

  function Pow10(n: nat): (p: nat)
    ensures p > 0
  {
    if n == 0 then 1 else 10 * Pow10(n - 1)
  }

  lemma NumSnoc(s: string, c: char)
    requires AllDigits(s) && IsDigit(c)
    ensures AllDigits(s + [c]) && Num(s + [c]) == 10 * Num(s) + DigitValue(c)
  {
    assert (s + [c])[..|s + [c]| - 1] == s;
  }

  lemma PaddingSnoc(s: string, n: nat)
    requires n > 0
    ensures s + Padding(n) == (s + Padding(n - 1)) + ['0']
  {
  }

  lemma TimesTen(a: nat, p: nat)
    ensures 10 * (a * p) == a * (10 * p)
  {
  }

  /** Padding zeros scale the number. */
  lemma {:induction false} NumPadded(s: string, n: nat)
    requires AllDigits(s)
    ensures AllDigits(s + Padding(n)) && Num(s + Padding(n)) == Num(s) * Pow10(n)
  {
    if n == 0 {
      assert s + Padding(0) == s;
    } else {
      NumPadded(s, n - 1);
      PaddingSnoc(s, n);
      NumSnoc(s + Padding(n - 1), '0');
      TimesTen(Num(s), Pow10(n - 1));
    }
  }

  lemma {:induction false} NumBound(s: string)
    requires AllDigits(s)
    ensures Num(s) < Pow10(|s|)
  {
    if s != "" {
      NumBound(s[..|s| - 1]);
    }
  }

  lemma {:induction false} NumPrefix(s: string, k: nat)
    requires AllDigits(s) && k <= |s|
    ensures Num(s[..k]) <= Num(s)
    decreases |s|
  {
    if k == |s| {
      assert s[..k] == s;
    } else {
      NumPrefix(s[..|s| - 1], k);
      assert s[..|s| - 1][..k] == s[..k];
    }
  }

  /** The library's integer parser: one checked step per digit. */
  method ParseU64(s: string) returns (r: Option<u64>)
    requires AllDigits(s)
    ensures r == if Num(s) < TWO_64 then Some(Num(s)) else None
  {
    var value: u64 := 0;
    for k := 0 to |s|
      invariant value == Num(s[..k])
    {
      assert s[..k + 1] == s[..k] + [s[k]];
      NumSnoc(s[..k], s[k]);
      NumPrefix(s, k + 1);
      var next := 10 * value + DigitValue(s[k]);
      if next >= TWO_64 {
        return None;
      }
      value := next;
    }
    assert s[..|s|] == s;
    r := Some(value);
  }

  // ---- Splitting at dots ------------------------------------------------------------------

  predicate NoDot(s: string) {
    forall i :: 0 <= i < |s| ==> s[i] != '.'
  }

  function FirstDot(s: string): (k: nat)
    ensures k <= |s| && NoDot(s[..k]) && (k < |s| ==> s[k] == '.')
  {
    if s == "" || s[0] == '.' then 0
    else
      var k := FirstDot(s[1..]) + 1;
      assert forall i :: 0 < i < k ==> s[i] == s[1..][i - 1];
      k
  }

  /** The parts between dots; there is always at least one. */
  function SplitDots(s: string): (parts: seq<string>)
    ensures |parts| >= 1
    decreases |s|
  {
    var k := FirstDot(s);
    if k == |s| then [s] else [s[..k]] + SplitDots(s[k + 1..])
  }

  lemma SplitNone(s: string)
    requires NoDot(s)
    ensures SplitDots(s) == [s]
  {
    var k := FirstDot(s);
    assert k == |s|;
  }

  lemma SplitOne(whole: string, fraction: string)
    requires NoDot(whole) && NoDot(fraction)
    ensures SplitDots(whole + "." + fraction) == [whole, fraction]
  {
    var s := whole + "." + fraction;
    var k := FirstDot(s);
    assert s[|whole|] == '.';
    assert forall i :: 0 <= i < |whole| ==> s[i] == whole[i];
    assert k == |whole|;
    assert s[..k] == whole && s[k + 1..] == fraction;
    SplitNone(fraction);
  }

  lemma SplitBack(s: string)
    ensures |SplitDots(s)| == 1 ==> s == SplitDots(s)[0] && NoDot(s)
    ensures |SplitDots(s)| == 2 ==> s == SplitDots(s)[0] + "." + SplitDots(s)[1]
  {
    var k := FirstDot(s);
    if k == |s| {
      assert s[..k] == s;
    } else {
      assert s == s[..k] + "." + s[k + 1..];
      var rest := s[k + 1..];
      if FirstDot(rest) == |rest| {
        assert SplitDots(rest) == [rest];
      }
    }
  }

  // ---- The parser -----------------------------------------------------------------------------

  /** What the parser answers, test by test. */
  function ParseAmount(value: string): Result<u64, AmountError> {
    var t := Trim(value);
    if t == "" then Err(Empty)
    else if t[0] == '-' then Err(Negative)
    else if t[0] == '+' then Err(InvalidChar)
    else
      var parts := SplitDots(t);
      if |parts| > 2 then Err(MultipleDots)
      else if !AllDigits(parts[0]) then Err(InvalidChar)
      else
        var fraction := if |parts| == 2 then parts[1] else "";
        if !AllDigits(fraction) then Err(InvalidChar)
        else if |fraction| > 6 then Err(TooManyDecimals)
        else Scaled(parts[0], fraction)
  }

  /** The value of whole.fraction in millionths. */
  function RawValue(whole: string, fraction: string): nat
    requires AllDigits(whole) && AllDigits(fraction) && |fraction| <= 6
  {
    Num(whole) * 1_000_000 + Num(fraction) * Pow10(6 - |fraction|)
  }

  function Scaled(whole: string, fraction: string): Result<u64, AmountError>
    requires AllDigits(whole) && AllDigits(fraction) && |fraction| <= 6
  {
    var raw := RawValue(whole, fraction);
    if raw >= TWO_64 then Err(Overflow) else if raw == 0 then Err(Zero) else Ok(raw)
  }

  /** The source's conversion: pad the fraction to six digits in a loop, then
      multiply and add with overflow checks. */
  method ScaleChecked(whole: string, fraction: string) returns (r: Result<u64, AmountError>)
    requires AllDigits(whole) && AllDigits(fraction) && |fraction| <= 6
    ensures r == Scaled(whole, fraction)
  {
    var integerValue: u64 := 0;
    if whole != "" {
      var parsed := ParseU64(whole);
      if parsed.None? {
        return Err(Overflow);
      }
      integerValue := parsed.value;
    }
    var padded := fraction;
    while |padded| < USDC_DECIMALS
      invariant |fraction| <= |padded| <= USDC_DECIMALS
      invariant padded == fraction + Padding(|padded| - |fraction|)
      decreases USDC_DECIMALS - |padded|
    {
      padded := padded + "0";
    }
    PaddedValue(whole, fraction, padded);
    var fractional := ParseU64(padded);
    if fractional.None? {
      assert false;
    }
    var scaled := integerValue * RAW_PER_WHOLE;
    if scaled >= TWO_64 || scaled + Num(padded) >= TWO_64 {
      return Err(Overflow);
    }
    var raw := scaled + fractional.value;
    r := if raw == 0 then Err(Zero) else Ok(raw);
  }

  lemma PaddedValue(whole: string, fraction: string, padded: string)
    requires AllDigits(whole) && AllDigits(fraction) && |fraction| <= 6 && padded == fraction + Padding(6 - |fraction|)
    ensures AllDigits(padded) && Num(padded) < 1_000_000
    ensures RawValue(whole, fraction) == Num(whole) * 1_000_000 + Num(padded)
  {
    PaddedNumber(fraction, padded);
  }

  lemma PaddedNumber(fraction: string, padded: string)
    requires AllDigits(fraction) && |fraction| <= 6 && padded == fraction + Padding(6 - |fraction|)
    ensures AllDigits(padded) && Num(padded) == Num(fraction) * Pow10(6 - |fraction|) && Num(padded) < 1_000_000
  {
    NumPadded(fraction, 6 - |fraction|);
    NumBound(padded);
    SixDigits();
  }

  lemma SixDigits()
    ensures Pow10(6) == RAW_PER_WHOLE
  {
    assert Pow10(3) == 1000;
  }

  method ParseUsdcAmountToRaw(value: string) returns (r: Result<u64, AmountError>)
    ensures r == ParseAmount(value)
  {
    var t := Trim(value);
    if t == "" {
      return Err(Empty);
    }
    if t[0] == '-' {
      return Err(Negative);
    }
    if t[0] == '+' {
      return Err(InvalidChar);
    }
    var parts := SplitDots(t);
    if |parts| > 2 {
      return Err(MultipleDots);
    }
    if !AllDigits(parts[0]) {
      return Err(InvalidChar);
    }
    var fraction := "";
    if |parts| == 2 {
      if !AllDigits(parts[1]) {
        return Err(InvalidChar);
      }
      if |parts[1]| > USDC_DECIMALS {
        return Err(TooManyDecimals);
      }
      fraction := parts[1];
    }
    r := ScaleChecked(parts[0], fraction);
  }

  // ---- What it accepts --------------------------------------------------------------------------

  /** t writes the unsigned decimal whole.fraction, the dot being optional when
      there is no fraction; at most six fraction digits. */
  predicate Writes(t: string, whole: string, fraction: string) {
    && t != "" && AllDigits(whole) && AllDigits(fraction) && |fraction| <= 6
    && (t == whole + "." + fraction || (t == whole && fraction == ""))
  }

  lemma DigitsHaveNoDot(s: string)
    requires AllDigits(s)
    ensures NoDot(s)
  {
  }

  lemma ParsesWhatIsWritten(value: string, whole: string, fraction: string)
    requires Writes(Trim(value), whole, fraction)
    ensures ParseAmount(value) == Scaled(whole, fraction)
  {
    var t := Trim(value);
    DigitsHaveNoDot(whole);
    DigitsHaveNoDot(fraction);
    assert t[0] == '.' || IsDigit(t[0]);
    if t == whole + "." + fraction {
      SplitOne(whole, fraction);
    } else {
      SplitNone(whole);
    }
  }

  /** A number comes out exactly when the trimmed text is an unsigned decimal with
      at most six fraction digits whose exact value in millionths is that number,
      positive and below 2^64. */
  lemma ParseOkIff(value: string, n: u64)
    ensures
      ParseAmount(value) == Ok(n) <==>
        exists whole, fraction :: Writes(Trim(value), whole, fraction) && RawValue(whole, fraction) == n && n > 0
  {
    var t := Trim(value);
    if ParseAmount(value) == Ok(n) {
      var parts := SplitDots(t);
      SplitBack(t);
      var fraction := if |parts| == 2 then parts[1] else "";
      assert Writes(t, parts[0], fraction);
    }
    if whole, fraction :| Writes(t, whole, fraction) && RawValue(whole, fraction) == n && n > 0 {
      ParsesWhatIsWritten(value, whole, fraction);
    }
  }

  // ---- The canonical rendering ---------------------------------------------------------------------

  function Digit(d: nat): (c: char)
    requires d < 10
    ensures IsDigit(c) && DigitValue(c) == d
  {
    (d + '0' as int) as char
  }

  function FixedDigits(n: nat, width: nat): (s: string)
    ensures |s| == width && AllDigits(s)
  {
    if width == 0 then "" else FixedDigits(n / 10, width - 1) + [Digit(n % 10)]
  }

  function Decimal(n: nat): (s: string)
    ensures AllDigits(s) && |s| >= 1
  {
    if n < 10 then [Digit(n)] else Decimal(n / 10) + [Digit(n % 10)]
  }

  lemma {:induction false} NumOfDecimal(n: nat)
    ensures Num(Decimal(n)) == n
  {
    if n < 10 {
      NumSnoc("", Digit(n));
      assert "" + [Digit(n)] == [Digit(n)];
    } else {
      NumOfDecimal(n / 10);
      NumSnoc(Decimal(n / 10), Digit(n % 10));
    }
  }

  lemma {:induction false} NumOfFixed(n: nat, width: nat)
    requires n < Pow10(width)
    ensures Num(FixedDigits(n, width)) == n
  {
    if width > 0 {
      NumOfFixed(n / 10, width - 1);
      NumSnoc(FixedDigits(n / 10, width - 1), Digit(n % 10));
    }
  }

  /** Whole units, a dot, and exactly six fraction digits. */
  function Render(raw: nat): string {
    Decimal(raw / RAW_PER_WHOLE) + "." + FixedDigits(raw % RAW_PER_WHOLE, USDC_DECIMALS)
  }

  /** Parsing undoes the rendering of every amount, in any surrounding whitespace. */
  lemma ParseRendered(raw: u64, left: string, right: string)
    requires raw > 0 && All(left, IsWhitespace) && All(right, IsWhitespace)
    ensures ParseAmount(left + Render(raw) + right) == Ok(raw)
  {
    var whole, fraction := Decimal(raw / RAW_PER_WHOLE), FixedDigits(raw % RAW_PER_WHOLE, USDC_DECIMALS);
    var t := Render(raw);
    assert IsDigit(t[0]) && IsDigit(t[|t| - 1]);
    TrimPadded(left, t, right);
    ParsesWhatIsWritten(left + t + right, whole, fraction);
    RenderedValue(raw, whole, fraction);
  }

  lemma RenderedValue(raw: u64, whole: string, fraction: string)
    requires whole == Decimal(raw / RAW_PER_WHOLE) && fraction == FixedDigits(raw % RAW_PER_WHOLE, USDC_DECIMALS)
    ensures RawValue(whole, fraction) == raw
  {
    NumOfDecimal(raw / RAW_PER_WHOLE);
    SixDigits();
    NumOfFixed(raw % RAW_PER_WHOLE, USDC_DECIMALS);
  }

  // ---- Drafts ------------------------------------------------------------------------------------------

  const MIN_AMOUNT_RAW: u64 := 100_000
  const MAX_AMOUNT_RAW: u64 := 1_000_000
  const EXPIRY_SECONDS: u64 := 180
  const MAX_THRESHOLD: u32 := 10_000
  const CONTROLLED_WALLET := "BPfDMmeMBmCbMC1rWh7hwigMBoKGBrKwXxSeUu9hhs5L"
  const CONTROLLED_USDC_ATA := "7LFdKcSV7JQYi3or5y9phHVPjhGigu5DDjUakAFbBmk3"

  /** The five closed choices (deposit, solend, USDC, save, gt) have one value each
      and are left implicit. */
  datatype Proposal = Proposal(
    amount: string,
    thresholdBps: u32,
    expirySeconds: u64,
    controlledWallet: string,
    controlledUsdcAta: string,
    originalUserMessage: string)

  datatype Draft = Draft(
    thresholdBps: u32,
    amountRaw: u64,
    expirySeconds: u64,
    controlledWallet: string,
    controlledUsdcAta: string,
    messageHash: string)

  datatype ProposeError =
    | AmountFormat(amount: AmountError)
    | AmountOutOfRange
    | ThresholdOutOfRangeError
    | UnsupportedExpiry
    | InvalidControlledWallet
    | UnsupportedControlledWallet
    | InvalidControlledUsdcAta
    | UnsupportedControlledUsdcAta
    | EmptyOriginalUserMessage

  function ValidateDraft(lib: Library, messageHash: string -> string, p: Proposal): Result<Draft, ProposeError> {
    match ParseAmount(p.amount)
    case Err(e) => Err(AmountFormat(e))
    case Ok(raw) =>
      if !(MIN_AMOUNT_RAW <= raw <= MAX_AMOUNT_RAW) then Err(AmountOutOfRange)
      else if !(1 <= p.thresholdBps <= MAX_THRESHOLD) then Err(ThresholdOutOfRangeError)
      else if p.expirySeconds != EXPIRY_SECONDS then Err(UnsupportedExpiry)
      else if lib.parseKey(p.controlledWallet).None? then Err(InvalidControlledWallet)
      else if p.controlledWallet != CONTROLLED_WALLET then Err(UnsupportedControlledWallet)
      else if lib.parseKey(p.controlledUsdcAta).None? then Err(InvalidControlledUsdcAta)
      else if p.controlledUsdcAta != CONTROLLED_USDC_ATA then Err(UnsupportedControlledUsdcAta)
      else if Trim(p.originalUserMessage) == "" then Err(EmptyOriginalUserMessage)
      else
        Ok(Draft(p.thresholdBps, raw, p.expirySeconds, p.controlledWallet, p.controlledUsdcAta,
                 messageHash(p.originalUserMessage)))
  }

  /** The pinned texts are well-formed keys. */
  predicate PinnedTextsParse(lib: Library) {
    lib.parseKey(CONTROLLED_WALLET).Some? && lib.parseKey(CONTROLLED_USDC_ATA).Some?
  }

  predicate IsBlank(s: string) {
    All(s, IsWhitespace)
  }

  lemma {:induction false} TrimStartEmptyIff(s: string)
    ensures TrimStart(s) == "" <==> IsBlank(s)
    ensures TrimStart(s) != "" ==> !IsWhitespace(TrimStart(s)[0])
  {
    if s != "" && IsWhitespace(s[0]) {
      TrimStartEmptyIff(s[1..]);
      assert forall i :: 1 <= i < |s| ==> s[i] == s[1..][i - 1];
    }
  }

  lemma {:induction false} TrimEndEmptyIff(s: string)
    ensures TrimEnd(s) == "" <==> IsBlank(s)
    decreases |s|
  {
    if s != "" && IsWhitespace(s[|s| - 1]) {
      TrimEndEmptyIff(s[..|s| - 1]);
    }
  }

  lemma TrimEmptyIff(s: string)
    ensures Trim(s) == "" <==> IsBlank(s)
  {
    TrimStartEmptyIff(s);
    TrimEndEmptyIff(TrimStart(s));
  }

  /** Which proposals become drafts, and which: between a tenth of a USDC and one USDC, a
      threshold of at most 10000 basis points, three minutes, the pinned accounts, and a
      message that says something. */
  lemma DraftIff(lib: Library, messageHash: string -> string, p: Proposal, d: Draft)
    requires PinnedTextsParse(lib)
    ensures
      ValidateDraft(lib, messageHash, p) == Ok(d) <==>
        && (exists whole, fraction :: Writes(Trim(p.amount), whole, fraction) && RawValue(whole, fraction) == d.amountRaw)
        && 100_000 <= d.amountRaw <= 1_000_000
        && 1 <= d.thresholdBps == p.thresholdBps <= 10_000
        && d.expirySeconds == p.expirySeconds == 180
        && d.controlledWallet == p.controlledWallet == CONTROLLED_WALLET
        && d.controlledUsdcAta == p.controlledUsdcAta == CONTROLLED_USDC_ATA
        && d.messageHash == messageHash(p.originalUserMessage) && !IsBlank(p.originalUserMessage)
  {
    ParseOkIff(p.amount, d.amountRaw);
    TrimEmptyIff(p.originalUserMessage);
    var r := ValidateDraft(lib, messageHash, p);
    if r.Ok? {
      ParseOkIff(p.amount, r.value.amountRaw);
    }
  }

  /** Everything a proposal may get wrong, by the error that names it. */
  predicate Wrong(lib: Library, p: Proposal, e: ProposeError) {
    match e
    case AmountFormat(error) => ParseAmount(p.amount) == Err(error)
    case AmountOutOfRange =>
      ParseAmount(p.amount).Ok? && !(100_000 <= ParseAmount(p.amount).value <= 1_000_000)
    case ThresholdOutOfRangeError => p.thresholdBps == 0 || p.thresholdBps > 10_000
    case UnsupportedExpiry => p.expirySeconds != 180
    case InvalidControlledWallet => lib.parseKey(p.controlledWallet).None?
    case UnsupportedControlledWallet => p.controlledWallet != CONTROLLED_WALLET
    case InvalidControlledUsdcAta => lib.parseKey(p.controlledUsdcAta).None?
    case UnsupportedControlledUsdcAta => p.controlledUsdcAta != CONTROLLED_USDC_ATA
    case EmptyOriginalUserMessage => IsBlank(p.originalUserMessage)
  }

  /** In which order the errors are looked for. */
  function Turn(e: ProposeError): nat {
    match e
    case AmountFormat(_) => 0
    case AmountOutOfRange => 1
    case ThresholdOutOfRangeError => 2
    case UnsupportedExpiry => 3
    case InvalidControlledWallet => 4
    case UnsupportedControlledWallet => 5
    case InvalidControlledUsdcAta => 6
    case UnsupportedControlledUsdcAta => 7
    case EmptyOriginalUserMessage => 8
  }

  /** A rejected proposal is told the first thing that is wrong with it. */
  lemma RejectionIsFirstError(lib: Library, messageHash: string -> string, p: Proposal)
    ensures
      match ValidateDraft(lib, messageHash, p)
      case Ok(_) => forall e :: !Wrong(lib, p, e)
      case Err(error) => Wrong(lib, p, error) && forall e :: Wrong(lib, p, e) ==> Turn(error) <= Turn(e)
  {
    TrimEmptyIff(p.originalUserMessage);
  }
}
