// Reading the rate inputs out of a reserve account, and the rate in basis points.
module ReserveAccount {
  import opened Prelude
  import opened FixedPoint
  import opened RateCurve
  import opened Codecs

  const RESERVE_LEN: nat := 619
  const STALE_OFFSET: nat := 9
  const AVAILABLE_OFFSET: nat := 171
  const BORROWED_OFFSET: nat := 179
  const OPTIMAL_UTILIZATION_OFFSET: nat := 299
  const MIN_RATE_OFFSET: nat := 303
  const OPTIMAL_RATE_OFFSET: nat := 304
  const MAX_RATE_OFFSET: nat := 305
  const TAKE_RATE_OFFSET: nat := 372
  const MAX_UTILIZATION_OFFSET: nat := 470
  const SUPER_MAX_RATE_OFFSET: nat := 471
  const APR_BPS_MAX: u64 := 10_000

  datatype ReadError = ReserveDecodeFailed | AprComputationFailed | AprOutOfRange

  function ReadU64(data: bytes, offset: nat): u64
    requires offset + 8 <= |data|
  {
    WordWidths();
    LittleEndianBound(data[offset..offset + 8]);
    LittleEndian(data[offset..offset + 8])
  }

  function ReadU128(data: bytes, offset: nat): u128
    requires offset + 16 <= |data|
  {
    WordWidths();
    LittleEndianBound(data[offset..offset + 16]);
    LittleEndian(data[offset..offset + 16])
  }

  function Decode(data: bytes): Option<Reserve> {
    if |data| != RESERVE_LEN || data[STALE_OFFSET] > 1 then None
    else
      Some(Reserve(
        ReadU64(data, AVAILABLE_OFFSET), ReadU128(data, BORROWED_OFFSET), data[MIN_RATE_OFFSET],
        data[OPTIMAL_RATE_OFFSET], data[MAX_RATE_OFFSET], ReadU64(data, SUPER_MAX_RATE_OFFSET),
        data[OPTIMAL_UTILIZATION_OFFSET], data[MAX_UTILIZATION_OFFSET], data[TAKE_RATE_OFFSET]))
  }

  function AprBps(wad: u128): u64 {
    if wad / BPS_WAD < TWO_64 then wad / BPS_WAD else TWO_64 - 1
  }

  function NativeSupplyApr(data: bytes): Result<(u128, u32), ReadError> {
    match Decode(data)
    case None => Err(ReserveDecodeFailed)
    case Some(reserve) =>
      match SupplyAprWad(reserve)
      case Err(_) => Err(AprComputationFailed)
      case Ok(wad) => if AprBps(wad) > APR_BPS_MAX then Err(AprOutOfRange) else Ok((wad, AprBps(wad)))
  }

  /** Which accounts give a rate, and which rate: the exact curve over the decoded
      fields, kept in full precision and, floored, in basis points. */
  lemma NativeSupplyAprIff(data: bytes, wad: u128, bps: u32)
    ensures
      NativeSupplyApr(data) == Ok((wad, bps)) <==>
        && |data| == 619 && data[9] <= 1
        && Decode(data).Some?
        && var r := Decode(data).value;
           && IsConfigValid(r) && !LiquidityOverflows(r)
           && SupplyAprWad(r) == Ok(wad)
           && bps * 1_000_000_000_000_000_000 <= wad * 10_000 < (bps + 1) * 1_000_000_000_000_000_000 && bps <= 10_000
  {
    Units();
    if Decode(data).Some? {
      SupplyAprExact(Decode(data).value);
    }
  }

  /** Why an account gives none: it is no reserve account, its curve has no value, or the
      rate is above one hundred percent by at least a basis point. */
  lemma NoRateTellsWhy(data: bytes)
    ensures NativeSupplyApr(data) == Err(ReserveDecodeFailed) <==> !(|data| == 619 && data[9] <= 1)
    ensures
      NativeSupplyApr(data) == Err(AprComputationFailed) <==>
        Decode(data).Some? && (!IsConfigValid(Decode(data).value) || LiquidityOverflows(Decode(data).value))
    ensures
      NativeSupplyApr(data) == Err(AprOutOfRange) <==>
        && Decode(data).Some? && SupplyAprWad(Decode(data).value).Ok?
        && SupplyAprWad(Decode(data).value).value * 10_000 >= 10_001 * 1_000_000_000_000_000_000
  {
    Units();
    if Decode(data).Some? {
      SupplyAprExact(Decode(data).value);
    }
  }

  // ---- The account as the program lays it out ---------------------------------------------

  /** The fields no rate depends on: version and slot; market, mint, supply and oracles;
      cumulative rate, price and collateral; the liquidation settings; fees, limits and
      fee receiver; further settings; and the rest of the account. */
  predicate AreGaps(g: seq<bytes>) {
    |g| == 7 && |g[0]| == 9 && |g[1]| == 161 && |g[2]| == 104 && |g[3]| == 3 && |g[4]| == 66 && |g[5]| == 97
    && |g[6]| == 140
  }

  /** The account, field after field. */
  function AccountBytes(r: Reserve, stale: u8, g: seq<bytes>): bytes
    requires AreGaps(g)
  {
    LiquidityBytes(r, stale, g) + ConfigBytes(r, g)
  }

  function LiquidityBytes(r: Reserve, stale: u8, g: seq<bytes>): bytes
    requires AreGaps(g)
  {
    g[0] + [stale] + g[1] + ToLittleEndian(r.availableAmount, 8) + ToLittleEndian(r.borrowedAmountWads, 16)
  }

  function ConfigBytes(r: Reserve, g: seq<bytes>): bytes
    requires AreGaps(g)
  {
    g[2] + [r.optimalUtilizationRatePct] + g[3] + [r.minBorrowRatePct, r.optimalBorrowRatePct, r.maxBorrowRatePct]
    + g[4] + [r.protocolTakeRatePct] + g[5] + [r.maxUtilizationRatePct] + ToLittleEndian(r.superMaxBorrowRatePct, 8)
    + g[6]
  }

  lemma LiquidityFields(r: Reserve, stale: u8, g: seq<bytes>, b: bytes)
    requires AreGaps(g) && b == LiquidityBytes(r, stale, g)
    ensures |b| == 195 && b[9] == stale
    ensures b[171..179] == ToLittleEndian(r.availableAmount, 8) && b[179..195] == ToLittleEndian(r.borrowedAmountWads, 16)
  {
  }

  lemma ConfigFields(r: Reserve, g: seq<bytes>, b: bytes)
    requires AreGaps(g) && b == ConfigBytes(r, g)
    ensures |b| == 424
    ensures b[299 - 195] == r.optimalUtilizationRatePct && b[372 - 195] == r.protocolTakeRatePct
    ensures
      b[303 - 195] == r.minBorrowRatePct && b[304 - 195] == r.optimalBorrowRatePct && b[305 - 195] == r.maxBorrowRatePct
    ensures b[470 - 195] == r.maxUtilizationRatePct
    ensures b[471 - 195..479 - 195] == ToLittleEndian(r.superMaxBorrowRatePct, 8)
  {
  }

  /** Every field is read from where the program wrote it, and the stale flag must be one. */
  lemma AccountDecodes(r: Reserve, stale: u8, g: seq<bytes>)
    requires AreGaps(g)
    ensures Decode(AccountBytes(r, stale, g)) == if stale <= 1 then Some(r) else None
  {
    FieldsDecode(r, stale, LiquidityBytes(r, stale, g), ConfigBytes(r, g), g);
  }

  lemma FieldsDecode(r: Reserve, stale: u8, a: bytes, b: bytes, g: seq<bytes>)
    requires AreGaps(g) && a == LiquidityBytes(r, stale, g) && b == ConfigBytes(r, g)
    ensures Decode(a + b) == if stale <= 1 then Some(r) else None
  {
    LiquidityFields(r, stale, g, a);
    ConfigFields(r, g, b);
    var data := a + b;
    assert data[171..179] == a[171..179] && data[179..195] == a[179..195];
    assert data[471..479] == b[471 - 195..479 - 195];
    WordWidths();
    LittleEndianRoundTrip(r.availableAmount, 8);
    LittleEndianRoundTrip(r.borrowedAmountWads, 16);
    LittleEndianRoundTrip(r.superMaxBorrowRatePct, 8);
  }

  function Field(data: bytes, offset: nat, value: bytes): bytes
    requires offset + |value| <= |data|
  {
    data[..offset] + value + data[offset + |value|..]
  }

  /** Writing an amount at its offset is what reading it there gives back. */
  lemma WrittenIsRead(data: bytes, offset: nat, amount: u64)
    requires offset + 8 <= |data|
    ensures |Field(data, offset, ToLittleEndian(amount, 8))| == |data|
    ensures ReadU64(Field(data, offset, ToLittleEndian(amount, 8)), offset) == amount
  {
    var written := Field(data, offset, ToLittleEndian(amount, 8));
    assert written[offset..offset + 8] == ToLittleEndian(amount, 8);
    WordWidths();
    LittleEndianRoundTrip(amount, 8);
  }
}
