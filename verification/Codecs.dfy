// Text and byte codecs shared by the intent tools: lowercase hex, UUID forms,
// percent-encoding, little-endian integers, and whitespace trimming.
//
// Text is a sequence of characters. The source tests byte lengths, but every
// accepted text is ASCII, where bytes and characters coincide.
module Codecs {
  import opened Prelude
  import opened Arith
  import opened FixedPoint

  // ---- Characters -----------------------------------------------------------

  predicate IsDigit(c: char) {
    '0' <= c <= '9'
  }

  predicate IsLowerHex(c: char) {
    IsDigit(c) || 'a' <= c <= 'f'
  }

  predicate IsHex(c: char) {
    IsLowerHex(c) || 'A' <= c <= 'F'
  }

  /** Unicode White_Space, the set that trimming strips. */
  predicate IsWhitespace(c: char) {
    var n := c as int;
    9 <= n <= 13 || n == 32 || n == 0x85 || n == 0xA0 || n == 0x1680 || 0x2000 <= n <= 0x200A
    || n == 0x2028 || n == 0x2029 || n == 0x202F || n == 0x205F || n == 0x3000
  }

  /** The blanks of everyday text are white space; what identifiers and amounts are made of
      is not. */
  lemma BlanksAndDigits(c: char)
    ensures c in " \t\r\n" ==> IsWhitespace(c)
    ensures '!' <= c <= '~' ==> !IsWhitespace(c)
  {
  }

  predicate All(s: string, p: char -> bool) {
    forall i :: 0 <= i < |s| ==> p(s[i])
  }

  function LowerChar(c: char): char {
    if 'A' <= c <= 'Z' then (c as int + 32) as char else c
  }

  function Lower(s: string): (t: string)
    ensures |t| == |s|
    ensures forall i :: 0 <= i < |s| ==> t[i] == LowerChar(s[i])
  {
    seq(|s|, i requires 0 <= i < |s| => LowerChar(s[i]))
  }

  // ---- Trimming ---------------------------------------------------------------

  function TrimStart(s: string): string {
    if s != "" && IsWhitespace(s[0]) then TrimStart(s[1..]) else s
  }

  function TrimEnd(s: string): string {
    if s != "" && IsWhitespace(s[|s| - 1]) then TrimEnd(s[..|s| - 1]) else s
  }

  function Trim(s: string): string {
    TrimEnd(TrimStart(s))
  }

  predicate Tight(s: string) {
    s == "" || (!IsWhitespace(s[0]) && !IsWhitespace(s[|s| - 1]))
  }

  /** Trimming removes exactly the padding around a text with tight ends. */
  lemma TrimPadded(left: string, s: string, right: string)
    requires All(left, IsWhitespace) && All(right, IsWhitespace) && Tight(s)
    ensures Trim(left + s + right) == s
  {
    TrimStartPadded(left, s + right);
    assert left + s + right == left + (s + right);
    if s == "" {
      assert s + right == right;
      TrimStartBlank(right);
    } else {
      TrimEndPadded(s, right);
    }
  }

  lemma {:induction false} TrimStartPadded(left: string, s: string)
    requires All(left, IsWhitespace)
    ensures TrimStart(left + s) == TrimStart(s)
    decreases |left|
  {
    if left == "" {
      assert left + s == s;
    } else {
      assert (left + s)[1..] == left[1..] + s;
      TrimStartPadded(left[1..], s);
    }
  }

  lemma {:induction false} TrimStartBlank(right: string)
    requires All(right, IsWhitespace)
    ensures TrimStart(right) == ""
  {
    if right != "" {
      TrimStartBlank(right[1..]);
    }
  }

  lemma {:induction false} TrimEndPadded(s: string, right: string)
    requires All(right, IsWhitespace) && Tight(s)
    ensures TrimEnd(s + right) == s
    decreases |right|
  {
    if right == "" {
      assert s + right == s;
    } else {
      var t := s + right;
      assert t[..|t| - 1] == s + right[..|right| - 1];
      TrimEndPadded(s, right[..|right| - 1]);
    }
  }

  // ---- Hex ----------------------------------------------------------------------

  function HexDigit(n: nat): (c: char)
    requires n < 16
    ensures IsLowerHex(c) && Nibble(c) == n
  {
    if n < 10 then (n + '0' as int) as char else (n - 10 + 'a' as int) as char
  }

  function Nibble(c: char): (n: nat)
    requires IsHex(c)
    ensures n < 16
  {
    if IsDigit(c) then c as int - '0' as int
    else if 'a' <= c <= 'f' then c as int - 'a' as int + 10
    else c as int - 'A' as int + 10
  }

  function HexLower(b: bytes): (s: string)
    ensures |s| == 2 * |b|
    ensures All(s, IsLowerHex)
  {
    if b == [] then "" else [HexDigit(b[0] / 16), HexDigit(b[0] % 16)] + HexLower(b[1..])
  }

  function FromHex(s: string): (b: bytes)
    requires |s| % 2 == 0 && All(s, IsHex)
    ensures |b| == |s| / 2
  {
    if s == "" then [] else [16 * Nibble(s[0]) + Nibble(s[1])] + FromHex(s[2..])
  }

  /** Byte k of the decoding is made of characters 2k and 2k + 1. */
  lemma {:induction false} FromHexAt(s: string, k: nat)
    requires |s| % 2 == 0 && All(s, IsHex) && k < |s| / 2
    ensures FromHex(s)[k] == 16 * Nibble(s[2 * k]) + Nibble(s[2 * k + 1])
  {
    if k > 0 {
      FromHexAt(s[2..], k - 1);
    }
  }

  lemma {:induction false} HexDecodesBack(b: bytes)
    ensures FromHex(HexLower(b)) == b
  {
    if b != [] {
      HexDecodesBack(b[1..]);
      assert HexLower(b)[2..] == HexLower(b[1..]);
    }
  }

  lemma DigitOfNibble(c: char)
    requires IsHex(c)
    ensures HexDigit(Nibble(c)) == LowerChar(c)
  {
  }

  lemma SplitByte(high: nat, low: nat)
    requires high < 16 && low < 16
    ensures 16 * high + low < 256 && (16 * high + low) / 16 == high && (16 * high + low) % 16 == low
  {
  }

  lemma HexLowerCons(head: u8, tail: bytes)
    ensures HexLower([head] + tail) == [HexDigit(head / 16), HexDigit(head % 16)] + HexLower(tail)
  {
    assert ([head] + tail)[1..] == tail;
  }

  lemma LowerCons(s: string)
    requires |s| >= 2
    ensures Lower(s) == [LowerChar(s[0]), LowerChar(s[1])] + Lower(s[2..])
  {
  }

  lemma {:induction false} HexEncodesBack(s: string)
    requires |s| % 2 == 0 && All(s, IsHex)
    ensures HexLower(FromHex(s)) == Lower(s)
  {
    if s != "" {
      var head, tail := 16 * Nibble(s[0]) + Nibble(s[1]), FromHex(s[2..]);
      PairEncodesBack(s[0], s[1]);
      calc {
        HexLower(FromHex(s));
      ==
        HexLower([head] + tail);
      ==  { HexLowerCons(head, tail); }
        [HexDigit(head / 16), HexDigit(head % 16)] + HexLower(tail);
      ==  { HexEncodesBack(s[2..]); }
        [LowerChar(s[0]), LowerChar(s[1])] + Lower(s[2..]);
      ==  { LowerCons(s); }
        Lower(s);
      }
    }
  }

  lemma PairEncodesBack(high: char, low: char)
    requires IsHex(high) && IsHex(low)
    ensures
      var b := 16 * Nibble(high) + Nibble(low);
      b < TWO_8 && HexDigit(b / 16) == LowerChar(high) && HexDigit(b % 16) == LowerChar(low)
  {
    DigitOfNibble(high);
    DigitOfNibble(low);
    SplitByte(Nibble(high), Nibble(low));
  }

  lemma HexLowerInjective(a: bytes, b: bytes)
    requires HexLower(a) == HexLower(b)
    ensures a == b
  {
    HexDecodesBack(a);
    HexDecodesBack(b);
  }

  /** The source's encoder: one formatted pair of digits appended per byte. */
  method EncodeHexLower(b: bytes) returns (output: string)
    ensures output == HexLower(b)
  {
    output := "";
    for k := 0 to |b|
      invariant output + HexLower(b[k..]) == HexLower(b)
    {
      assert b[k..][1..] == b[k + 1..];
      output := output + [HexDigit(b[k] / 16), HexDigit(b[k] % 16)];
    }
    assert b[|b|..] == [];
  }

  // ---- Rule ids -------------------------------------------------------------------

  /** What the lowercase-only decoders of the funding and watch tools accept. */
  function DecodeRuleId(value: string): (r: Option<bytes>)
    ensures r.Some? ==> |r.value| == 16
  {
    if |value| == 32 && All(value, IsLowerHex) then Some(FromHex(value)) else None
  }

  /** The funding tool's decoder: a 16-byte buffer filled in place. */
  method DecodeRuleIdInPlace(value: string) returns (r: Option<bytes>)
    ensures r == DecodeRuleId(value)
  {
    if |value| != 32 {
      return None;
    }
    for i := 0 to |value|
      invariant forall k :: 0 <= k < i ==> IsLowerHex(value[k])
    {
      if !IsLowerHex(value[i]) {
        return None;
      }
    }
    var output := new u8[16](_ => 0);
    for index := 0 to 16
      invariant forall k :: 0 <= k < index ==> output[k] == 16 * Nibble(value[2 * k]) + Nibble(value[2 * k + 1])
    {
      output[index] := 16 * Nibble(value[2 * index]) + Nibble(value[2 * index + 1]);
    }
    forall k | 0 <= k < 16 ensures output[k] == FromHex(value)[k] {
      FromHexAt(value, k);
    }
    assert output[..] == FromHex(value);
    return Some(output[..]);
  }

  /** The lowercase decoders accept exactly the canonical renderings of 16-byte
      ids, and give the rendered id back. */
  lemma DecodeRuleIdIff(value: string, id: bytes)
    requires |id| == 16
    ensures DecodeRuleId(value) == Some(id) <==> value == HexLower(id)
  {
    HexDecodesBack(id);
    if DecodeRuleId(value) == Some(id) {
      HexEncodesBack(value);
      assert Lower(value) == value;
    }
  }

  // ---- UUID references --------------------------------------------------------------

  predicate IsHyphenPosition(i: nat) {
    i == 8 || i == 13 || i == 18 || i == 23
  }

  predicate HasUuidHyphens(s: string) {
    forall i :: 0 <= i < |s| ==> if IsHyphenPosition(i) then s[i] == '-' else IsHex(s[i])
  }

  /** The 36-character text without the characters at the hyphen positions. */
  function Compact(s: string): (t: string)
    requires |s| == 36
    ensures |t| == 32
  {
    s[..8] + s[9..13] + s[14..18] + s[19..23] + s[24..]
  }

  function Hyphenate(s: string): (t: string)
    requires |s| == 32
    ensures |t| == 36
  {
    s[..8] + "-" + s[8..12] + "-" + s[12..16] + "-" + s[16..20] + "-" + s[20..]
  }

  lemma LowerHexIff(s: string)
    requires All(s, IsHex)
    ensures All(s, IsLowerHex) <==> Lower(s) == s
  {
  }

  /** Hyphens have no case. */
  lemma LowerCompact(s: string)
    requires |s| == 36 && HasUuidHyphens(s)
    ensures Lower(Compact(s)) == Compact(s) <==> Lower(s) == s
    ensures All(Compact(s), IsHex)
  {
    var t := Compact(s);
    if Lower(t) == t {
      forall i | 0 <= i < 36 ensures LowerChar(s[i]) == s[i] {
        if !IsHyphenPosition(i) {
          var k := i - (if i < 8 then 0 else if i < 13 then 1 else if i < 18 then 2 else if i < 23 then 3 else 4);
          assert t[k] == s[i] && Lower(t)[k] == t[k];
        }
      }
    }
    if Lower(s) == s {
      forall k | 0 <= k < 32 ensures LowerChar(t[k]) == t[k] {
        var i := k + (if k < 8 then 0 else if k < 12 then 1 else if k < 16 then 2 else if k < 20 then 3 else 4);
        assert t[k] == s[i] && Lower(s)[i] == s[i];
      }
    }
  }

  /** The digits of a UUID in any of the forms the parser of the uuid crate reads:
      simple, hyphenated, braced, or as a URN; either case. */
  function UuidDigits(s: string): (digits: Option<string>)
    ensures digits.Some? ==> |digits.value| == 32
  {
    if |s| == 32 && All(s, IsHex) then Some(s)
    else if |s| == 36 && HasUuidHyphens(s) then Some(Compact(s))
    else if |s| == 38 && s[0] == '{' && s[37] == '}' && HasUuidHyphens(s[1..37]) then Some(Compact(s[1..37]))
    else if |s| == 45 && s[..9] == "urn:uuid:" && HasUuidHyphens(s[9..]) then Some(Compact(s[9..]))
    else None
  }

  /** The version is the thirteenth digit. */
  predicate IsV4Uuid(s: string) {
    UuidDigits(s).Some? && UuidDigits(s).value[12] == '4'
  }

  datatype ResolvedRef = ResolvedRef(intentId: string, ruleId: bytes)

  /** The status tool's resolver: trimmed, either case, optional hyphens. */
  function ResolveUuidRef(intentRef: string): Option<ResolvedRef> {
    var candidate := Trim(intentRef);
    if |candidate| == 32 && All(candidate, IsHex) then
      Some(ResolvedRef(Lower(candidate), FromHex(candidate)))
    else if |candidate| == 36 && HasUuidHyphens(candidate) then
      var compact := Compact(candidate);
      if All(compact, IsHex) then Some(ResolvedRef(Lower(compact), FromHex(compact))) else None
    else None
  }

  lemma HexIsTight(s: string)
    requires s != "" && All(s, IsHex)
    ensures Tight(s)
  {
  }

  lemma HyphenateAt(text: string)
    requires |text| == 32 && All(text, IsHex)
    ensures HasUuidHyphens(Hyphenate(text))
  {
    var t := Hyphenate(text);
    forall i | 0 <= i < |t| ensures if IsHyphenPosition(i) then t[i] == '-' else IsHex(t[i]) {
      if i < 8 {
        assert t[i] == text[i];
      } else if 8 < i < 13 {
        assert t[i] == text[i - 1];
      } else if 13 < i < 18 {
        assert t[i] == text[i - 2];
      } else if 18 < i < 23 {
        assert t[i] == text[i - 3];
      } else if 23 < i {
        assert t[i] == text[i - 4];
      }
    }
  }

  lemma RenderingDecodes(id: bytes, text: string)
    requires |id| == 16 && |text| == 32 && Lower(text) == HexLower(id)
    ensures All(text, IsHex) && FromHex(text) == id
  {
    forall i | 0 <= i < |text| ensures IsHex(text[i]) {
      assert IsLowerHex(Lower(text)[i]);
    }
    HexEncodesBack(text);
    HexLowerInjective(FromHex(text), id);
  }

  lemma HyphenatedIsTight(text: string)
    requires |text| == 32 && All(text, IsHex)
    ensures Tight(Hyphenate(text)) && Compact(Hyphenate(text)) == text
  {
    var t := Hyphenate(text);
    assert t[..8] == text[..8] && t[9..13] == text[8..12] && t[14..18] == text[12..16];
    assert t[19..23] == text[16..20] && t[24..] == text[20..];
  }

  /** Every way of writing an id resolves to it: any letter case, with or
      without hyphens, and with any surrounding whitespace. */
  lemma UuidFormsAgree(id: bytes, text: string, left: string, right: string)
    requires |id| == 16 && |text| == 32 && Lower(text) == HexLower(id)
    requires All(left, IsWhitespace) && All(right, IsWhitespace)
    ensures ResolveUuidRef(left + text + right) == Some(ResolvedRef(HexLower(id), id))
    ensures ResolveUuidRef(left + Hyphenate(text) + right) == Some(ResolvedRef(HexLower(id), id))
  {
    RenderingDecodes(id, text);
    HexIsTight(text);
    TrimPadded(left, text, right);
    HyphenateAt(text);
    HyphenatedIsTight(text);
    TrimPadded(left, Hyphenate(text), right);
  }

  /** A resolved reference is a canonical rendering of its id, so resolving it
      again changes nothing and the lowercase decoders agree with it. */
  lemma ResolvedIsCanonical(intentRef: string)
    requires ResolveUuidRef(intentRef).Some?
    ensures
      var r := ResolveUuidRef(intentRef).value;
      && |r.ruleId| == 16 && r.intentId == HexLower(r.ruleId)
      && ResolveUuidRef(r.intentId) == Some(r)
      && DecodeRuleId(r.intentId) == Some(r.ruleId)
  {
    var candidate := Trim(intentRef);
    CanonicalText(if |candidate| == 32 && All(candidate, IsHex) then candidate else Compact(candidate));
  }

  lemma CanonicalText(digits: string)
    requires |digits| == 32 && All(digits, IsHex)
    ensures
      var text, id := Lower(digits), FromHex(digits);
      && text == HexLower(id) && ResolveUuidRef(text) == Some(ResolvedRef(text, id)) && DecodeRuleId(text) == Some(id)
  {
    HexEncodesBack(digits);
    RenderingResolves(FromHex(digits));
    DecodeRuleIdIff(Lower(digits), FromHex(digits));
  }

  lemma RenderingResolves(id: bytes)
    requires |id| == 16
    ensures ResolveUuidRef(HexLower(id)) == Some(ResolvedRef(HexLower(id), id))
  {
    var text := HexLower(id);
    HexDecodesBack(id);
    assert Lower(text) == text;
    RenderingDecodes(id, text);
    HexIsTight(text);
    TrimPadded("", text, "");
    assert "" + text + "" == text;
  }

  lemma HyphenateCompact(t: string)
    requires |t| == 36 && t[8] == '-' && t[13] == '-' && t[18] == '-' && t[23] == '-'
    ensures Hyphenate(Compact(t)) == t
  {
    var s := Compact(t);
    assert s[..8] == t[..8] && s[8..12] == t[9..13] && s[12..16] == t[14..18];
    assert s[16..20] == t[19..23] && s[20..] == t[24..];
    assert t == t[..8] + [t[8]] + t[9..13] + [t[13]] + t[14..18] + [t[18]] + t[19..23] + [t[23]] + t[24..];
  }

  /** A reference resolves to an id exactly when, trimmed, it is that id's text in some
      letter case, with all its hyphens or with none. */
  lemma ResolveIff(intentRef: string, id: bytes)
    requires |id| == 16
    ensures
      ResolveUuidRef(intentRef) == Some(ResolvedRef(HexLower(id), id)) <==>
        exists text :: IsSpelling(text, id) && (Trim(intentRef) == text || Trim(intentRef) == Hyphenate(text))
  {
    var t := Trim(intentRef);
    if ResolveUuidRef(intentRef) == Some(ResolvedRef(HexLower(id), id)) {
      if |t| == 32 {
        assert IsSpelling(t, id);
      } else {
        HyphenateCompact(t);
        assert IsSpelling(Compact(t), id);
      }
    }
    if text :| IsSpelling(text, id) && (t == text || t == Hyphenate(text)) {
      RenderingDecodes(id, text);
      HyphenateAt(text);
      HyphenatedIsTight(text);
    }
  }

  predicate IsSpelling(text: string, id: bytes) {
    |text| == 32 && Lower(text) == HexLower(id)
  }

  /** 32 digits with a 4 at the version's place. */
  predicate AreV4Digits(digits: string) {
    |digits| == 32 && All(digits, IsHex) && digits[12] == '4'
  }

  /** Exactly the four spellings of a version-4 UUID pass: bare digits, hyphenated,
      in braces, or as a URN. */
  lemma V4UuidIff(s: string)
    ensures
      IsV4Uuid(s) <==>
        exists digits :: AreV4Digits(digits)
                         && (s == digits || s == Hyphenate(digits) || s == "{" + Hyphenate(digits) + "}"
                             || s == "urn:uuid:" + Hyphenate(digits))
  {
    if IsV4Uuid(s) {
      V4UuidIsSpelled(s);
    }
    if digits :| AreV4Digits(digits) && (s == digits || s == Hyphenate(digits) || s == "{" + Hyphenate(digits) + "}"
                                         || s == "urn:uuid:" + Hyphenate(digits))
    {
      V4SpellingPasses(s, digits);
    }
  }

  lemma V4UuidIsSpelled(s: string)
    requires IsV4Uuid(s)
    ensures
      var digits := UuidDigits(s).value;
      AreV4Digits(digits)
      && (s == digits || s == Hyphenate(digits) || s == "{" + Hyphenate(digits) + "}" || s == "urn:uuid:" + Hyphenate(digits))
  {
    if |s| == 36 {
      HyphenateCompact(s);
      LowerCompact(s);
    } else if |s| == 38 {
      HyphenateCompact(s[1..37]);
      LowerCompact(s[1..37]);
      assert s == [s[0]] + s[1..37] + [s[37]];
    } else if |s| == 45 {
      HyphenateCompact(s[9..]);
      LowerCompact(s[9..]);
      assert s == s[..9] + s[9..];
    }
  }

  lemma V4SpellingPasses(s: string, digits: string)
    requires AreV4Digits(digits)
    requires s == digits || s == Hyphenate(digits) || s == "{" + Hyphenate(digits) + "}"
             || s == "urn:uuid:" + Hyphenate(digits)
    ensures IsV4Uuid(s)
  {
    HyphenateAt(digits);
    HyphenatedIsTight(digits);
    if |s| == 38 {
      assert s[1..37] == Hyphenate(digits);
    } else if |s| == 45 {
      assert s[..9] == "urn:uuid:" && s[9..] == Hyphenate(digits);
    }
  }

  // ---- Percent-encoding (sections 2.1 and 2.3 of RFC 3986) ----------------------------

  predicate IsUnreserved(c: char) {
    IsDigit(c) || 'a' <= c <= 'z' || 'A' <= c <= 'Z' || c == '-' || c == '_' || c == '.' || c == '~'
  }

  predicate IsUpperHex(c: char) {
    IsDigit(c) || 'A' <= c <= 'F'
  }

  function UpperHexDigit(n: nat): (c: char)
    requires n < 16
    ensures IsUpperHex(c) && Nibble(c) == n
  {
    if n < 10 then (n + '0' as int) as char else (n - 10 + 'A' as int) as char
  }

  function EncodeByte(b: u8): string {
    if IsUnreserved(b as char) then [b as char] else ['%', UpperHexDigit(b / 16), UpperHexDigit(b % 16)]
  }

  function PercentEncode(value: bytes): string {
    if value == [] then "" else EncodeByte(value[0]) + PercentEncode(value[1..])
  }

  /** Unreserved characters and uppercase triplets, nothing else. */
  predicate IsPercentEncoded(s: string)
    decreases |s|
  {
    s == ""
    || (IsUnreserved(s[0]) && IsPercentEncoded(s[1..]))
    || (|s| >= 3 && s[0] == '%' && IsUpperHex(s[1]) && IsUpperHex(s[2]) && IsPercentEncoded(s[3..]))
  }

  /** A standard decoder: triplets to bytes, other ASCII characters verbatim. */
  function PercentDecode(s: string): Option<bytes>
    decreases |s|
  {
    if s == "" then Some([])
    else if s[0] == '%' then
      if |s| >= 3 && IsHex(s[1]) && IsHex(s[2]) then
        match PercentDecode(s[3..])
        case None => None
        case Some(rest) => Some([16 * Nibble(s[1]) + Nibble(s[2])] + rest)
      else None
    else if s[0] as int >= 128 then None
    else
      match PercentDecode(s[1..])
      case None => None
      case Some(rest) => Some([s[0] as int] + rest)
  }

  /** A byte is left as it is exactly when it is the ASCII code of a letter, a digit, or one
      of - . _ ~ (section 2.3 of RFC 3986); any other becomes a triplet. */
  lemma VerbatimIff(b: u8)
    ensures
      EncodeByte(b) == [b as char] <==>
        65 <= b <= 90 || 97 <= b <= 122 || 48 <= b <= 57 || b == 45 || b == 46 || b == 95 || b == 126
    ensures EncodeByte(b) != [b as char] ==> |EncodeByte(b)| == 3
  {
  }

  /** Encoding any bytes decodes back to them and stays inside the alphabet. */
  lemma {:induction false} PercentRoundTrip(value: bytes)
    ensures PercentDecode(PercentEncode(value)) == Some(value)
    ensures IsPercentEncoded(PercentEncode(value))
  {
    if value != [] {
      PercentRoundTrip(value[1..]);
      EncodedByteDecodes(value[0], PercentEncode(value[1..]), value[1..]);
      assert [value[0]] + value[1..] == value;
    }
  }

  lemma EncodedByteDecodes(b: u8, rest: string, tail: bytes)
    requires PercentDecode(rest) == Some(tail) && IsPercentEncoded(rest)
    ensures PercentDecode(EncodeByte(b) + rest) == Some([b] + tail)
    ensures IsPercentEncoded(EncodeByte(b) + rest)
  {
    var s := EncodeByte(b) + rest;
    if IsUnreserved(b as char) {
      assert s[1..] == rest;
    } else {
      SplitByte(b / 16, b % 16);
      assert s[3..] == rest;
    }
  }

  lemma PercentStep(before: string, value: bytes, k: nat)
    requires k < |value|
    ensures before + EncodeByte(value[k]) + PercentEncode(value[k + 1..]) == before + PercentEncode(value[k..])
  {
    assert value[k..][1..] == value[k + 1..];
    assert before + EncodeByte(value[k]) + PercentEncode(value[k + 1..])
        == before + (EncodeByte(value[k]) + PercentEncode(value[k + 1..]));
  }

  /** The signing-page encoder: a buffer that grows byte by byte. */
  method PercentEncodeFragmentComponent(value: bytes) returns (encoded: string)
    ensures encoded == PercentEncode(value)
  {
    encoded := "";
    for k := 0 to |value|
      invariant encoded + PercentEncode(value[k..]) == PercentEncode(value)
    {
      var byte := value[k];
      ghost var before := encoded;
      PercentStep(before, value, k);
      if IsUnreserved(byte as char) {
        encoded := encoded + [byte as char];
      } else {
        encoded := encoded + "%";
        encoded := encoded + [UpperHexDigit(byte / 16)];
        encoded := encoded + [UpperHexDigit(byte % 16)];
      }
      assert encoded == before + EncodeByte(byte);
    }
    assert value[|value|..] == [];
  }

  // ---- Little-endian integers ------------------------------------------------------------

  function LittleEndian(b: bytes): nat {
    if b == [] then 0 else b[0] + 256 * LittleEndian(b[1..])
  }

  function ToLittleEndian(n: nat, width: nat): (b: bytes)
    ensures |b| == width
  {
    if width == 0 then [] else [n % 256] + ToLittleEndian(n / 256, width - 1)
  }

  lemma {:induction false} LittleEndianBound(b: bytes)
    ensures LittleEndian(b) < Pow2(8 * |b|)
  {
    if b != [] {
      LittleEndianBound(b[1..]);
      Pow2Add(8, 8 * (|b| - 1));
      assert Pow2(8) == 256 by {
        Pow2Add(4, 4);
        assert Pow2(4) == 16;
      }
    }
  }

  lemma {:induction false} LittleEndianRoundTrip(n: nat, width: nat)
    requires n < Pow2(8 * width)
    ensures LittleEndian(ToLittleEndian(n, width)) == n
  {
    if width > 0 {
      Pow2Add(8, 8 * (width - 1));
      assert Pow2(8) == 256 by {
        Pow2Add(4, 4);
        assert Pow2(4) == 16;
      }
      LittleEndianRoundTrip(n / 256, width - 1);
    }
  }

  lemma WordWidths()
    ensures Pow2(8) == TWO_8 && Pow2(32) == TWO_32 && Pow2(64) == TWO_64 && Pow2(128) == TWO_128
    ensures Pow2(63) == TWO_63 && Pow2(127) == TWO_127
  {
    Pow2Of128();
    Pow2Of32();
    Pow2Add(32, 32);
    Pow2Add(4, 4);
    assert Pow2(4) == 16;
    assert Pow2(64) == 2 * Pow2(63) && Pow2(128) == 2 * Pow2(127);
  }
}
