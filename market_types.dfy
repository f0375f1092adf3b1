/**
 * The `Market` record of the market module, the sparse `MarketParams` patch and
 * `Market.Mutate`, which merges a patch into a market through a `*Market`.
 *
 * Time is in nanoseconds since the Unix epoch (`time.Time`), durations in
 * nanoseconds (`time.Duration`).
 */
module MarketTypes {
  import opened Outcomes
  import opened FixedPoint

  /** The two market types a market may have (any other string is invalid). */
  const SpotMarket: string := "spot"
  const FuturesMarket: string := "futures"

  const MaxMarketNameLength: int := 128
  const MaxMarketDisplayNameLength: int := 128

  /** The system-wide maximum lot size, 10^30, an `sdkmath.Int`. */
  const MaxLotSize: int := 1_000_000_000_000_000_000_000_000_000_000
  /** The system-wide maximum tick size, 10^30, an `sdk.Dec`. */
  const MaxTickSize: Dec := MaxLotSize * Precision

  const NanosPerSecond: int := 1_000_000_000

  datatype Market = Market(
    name: string,
    displayName: string,
    description: string,
    marketType: string,
    base: string,
    quote: string,
    basePrecision: Int64,
    quotePrecision: Int64,
    lotSize: int,
    tickSize: Dec,
    minQuantity: int,
    isActive: bool,
    riskStepSize: int,
    initialMarginBase: Dec,
    initialMarginStep: Dec,
    maintenanceMarginRatio: Dec,
    maxLiquidationOrderTicket: int,
    maxLiquidationOrderDuration: int,
    impactSize: int,
    markPriceBand: Uint32,
    lastPriceProtectedBand: Uint32,
    indexOracleId: string,
    expiryTime: int,
    isSettled: bool,
    tradingBandwidth: Uint32)

  /**
   * A sparse update of a market: `None` is a nil pointer (leave the field as it is).
   * `name` names the market to update and is never written into it.
   */
  datatype MarketParams = MarketParams(
    name: string,
    displayName: Option<string>,
    description: Option<string>,
    lotSize: Option<int>,
    tickSize: Option<Dec>,
    minQuantity: Option<int>,
    riskStepSize: Option<int>,
    initialMarginBase: Option<Dec>,
    initialMarginStep: Option<Dec>,
    maintenanceMarginRatio: Option<Dec>,
    maxLiquidationOrderTicket: Option<int>,
    maxLiquidationOrderDuration: Option<int>,
    impactSize: Option<int>,
    markPriceBand: Option<Uint32>,
    lastPriceProtectedBand: Option<Uint32>,
    tradingBandwidth: Option<Uint32>,
    isActive: Option<bool>,
    expiryTime: Option<int>)

  /** `Time.Unix`: whole seconds since the epoch, rounded down. */
  function ExpiryUnix(m: Market): (secs: int)
    ensures secs * NanosPerSecond <= m.expiryTime < (secs + 1) * NanosPerSecond
  {
    DivisionBounds(m.expiryTime, NanosPerSecond);
    m.expiryTime / NanosPerSecond
  }

  /** A patch that sets nothing. */
  function EmptyPatch(name: string): MarketParams
  {
    MarketParams(name, None, None, None, None, None, None, None, None, None,
                 None, None, None, None, None, None, None, None)
  }

  /**
   * The market after the patch: every field the patch sets takes the patch's
   * value, every other field keeps its value, and the name never changes.
   */
  function Patched(m: Market, p: MarketParams): (r: Market)
    ensures r.name == m.name
    ensures r.marketType == m.marketType && r.base == m.base && r.quote == m.quote
    ensures r.basePrecision == m.basePrecision && r.quotePrecision == m.quotePrecision
    ensures r.indexOracleId == m.indexOracleId && r.isSettled == m.isSettled
    ensures r.displayName == p.displayName.GetOr(m.displayName)
    ensures r.description == p.description.GetOr(m.description)
    ensures r.lotSize == p.lotSize.GetOr(m.lotSize)
    ensures r.tickSize == p.tickSize.GetOr(m.tickSize)
    ensures r.minQuantity == p.minQuantity.GetOr(m.minQuantity)
    ensures r.riskStepSize == p.riskStepSize.GetOr(m.riskStepSize)
    ensures r.initialMarginBase == p.initialMarginBase.GetOr(m.initialMarginBase)
    ensures r.initialMarginStep == p.initialMarginStep.GetOr(m.initialMarginStep)
    ensures r.maintenanceMarginRatio == p.maintenanceMarginRatio.GetOr(m.maintenanceMarginRatio)
    ensures r.maxLiquidationOrderTicket == p.maxLiquidationOrderTicket.GetOr(m.maxLiquidationOrderTicket)
    ensures r.maxLiquidationOrderDuration == p.maxLiquidationOrderDuration.GetOr(m.maxLiquidationOrderDuration)
    ensures r.impactSize == p.impactSize.GetOr(m.impactSize)
    ensures r.markPriceBand == p.markPriceBand.GetOr(m.markPriceBand)
    ensures r.lastPriceProtectedBand == p.lastPriceProtectedBand.GetOr(m.lastPriceProtectedBand)
    ensures r.tradingBandwidth == p.tradingBandwidth.GetOr(m.tradingBandwidth)
    ensures r.isActive == p.isActive.GetOr(m.isActive)
    ensures r.expiryTime == p.expiryTime.GetOr(m.expiryTime)
  {
    m.(displayName := p.displayName.GetOr(m.displayName),
       description := p.description.GetOr(m.description),
       lotSize := p.lotSize.GetOr(m.lotSize),
       tickSize := p.tickSize.GetOr(m.tickSize),
       minQuantity := p.minQuantity.GetOr(m.minQuantity),
       riskStepSize := p.riskStepSize.GetOr(m.riskStepSize),
       initialMarginBase := p.initialMarginBase.GetOr(m.initialMarginBase),
       initialMarginStep := p.initialMarginStep.GetOr(m.initialMarginStep),
       maintenanceMarginRatio := p.maintenanceMarginRatio.GetOr(m.maintenanceMarginRatio),
       maxLiquidationOrderTicket := p.maxLiquidationOrderTicket.GetOr(m.maxLiquidationOrderTicket),
       maxLiquidationOrderDuration := p.maxLiquidationOrderDuration.GetOr(m.maxLiquidationOrderDuration),
       impactSize := p.impactSize.GetOr(m.impactSize),
       markPriceBand := p.markPriceBand.GetOr(m.markPriceBand),
       lastPriceProtectedBand := p.lastPriceProtectedBand.GetOr(m.lastPriceProtectedBand),
       tradingBandwidth := p.tradingBandwidth.GetOr(m.tradingBandwidth),
       isActive := p.isActive.GetOr(m.isActive),
       expiryTime := p.expiryTime.GetOr(m.expiryTime))
  }

  /** The patch that applies `p` and then `q`: q's fields win where both are set. */
  function Then(p: MarketParams, q: MarketParams): MarketParams
  {
    MarketParams(p.name,
      Override(p.displayName, q.displayName),
      Override(p.description, q.description),
      Override(p.lotSize, q.lotSize),
      Override(p.tickSize, q.tickSize),
      Override(p.minQuantity, q.minQuantity),
      Override(p.riskStepSize, q.riskStepSize),
      Override(p.initialMarginBase, q.initialMarginBase),
      Override(p.initialMarginStep, q.initialMarginStep),
      Override(p.maintenanceMarginRatio, q.maintenanceMarginRatio),
      Override(p.maxLiquidationOrderTicket, q.maxLiquidationOrderTicket),
      Override(p.maxLiquidationOrderDuration, q.maxLiquidationOrderDuration),
      Override(p.impactSize, q.impactSize),
      Override(p.markPriceBand, q.markPriceBand),
      Override(p.lastPriceProtectedBand, q.lastPriceProtectedBand),
      Override(p.tradingBandwidth, q.tradingBandwidth),
      Override(p.isActive, q.isActive),
      Override(p.expiryTime, q.expiryTime))
  }

  function Override<T>(first: Option<T>, second: Option<T>): Option<T>
  {
    if second.Some? then second else first
  }

  /** A patch that sets nothing leaves the market as it is. */
  lemma EmptyPatchIsIdentity(m: Market, name: string)
    ensures Patched(m, EmptyPatch(name)) == m
  {
  }

  /** Applying the same patch twice is the same as applying it once. */
  lemma PatchIdempotent(m: Market, p: MarketParams)
    ensures Patched(Patched(m, p), p) == Patched(m, p)
  {
  }

  /** Two patches in a row are one patch in which the later one's fields win. */
  lemma PatchesCompose(m: Market, p: MarketParams, q: MarketParams)
    ensures Patched(Patched(m, p), q) == Patched(m, Then(p, q))
  {
  }

  /** A `*Market`: the market that `Mutate` writes into. */
  class MarketRef {
    var market: Market

    constructor (m: Market)
      ensures market == m
    {
      market := m;
    }

    /**
     * `Market.Mutate`: writes every non-nil field of the patch into the referenced
     * market, skipping the name; it always returns a nil error, so it returns nothing here.
     */
    method Mutate(p: MarketParams)
      modifies this
      ensures market == Patched(old(market), p)
      ensures market.name == old(market).name
    {
      market := Patched(market, p);
    }
  }

  /**
   * `Market.PrecisionDifference`: quote precision minus base precision in int64,
   * which wraps around on overflow.
   */
  function PrecisionDifference(m: Market): (r: Int64)
    ensures (-0x8000_0000_0000_0000 <= m.quotePrecision - m.basePrecision < 0x8000_0000_0000_0000)
            ==> r == m.quotePrecision - m.basePrecision
    ensures (r - (m.quotePrecision - m.basePrecision)) % 0x1_0000_0000_0000_0000 == 0
  {
    WrapInt64(m.quotePrecision - m.basePrecision)
  }

  /** Adding the difference back to the base precision gives the quote precision, in int64. */
  lemma PrecisionDifferenceRestoresQuote(m: Market)
    ensures WrapInt64(m.basePrecision + PrecisionDifference(m)) == m.quotePrecision
  {
    var d := PrecisionDifference(m);
    var k := (d - (m.quotePrecision - m.basePrecision)) / 0x1_0000_0000_0000_0000;
    assert m.basePrecision + d == m.quotePrecision + k * 0x1_0000_0000_0000_0000;
    WrapShift(m.quotePrecision, k);
  }

  /** Wrapping ignores multiples of 2^64. */
  lemma WrapShift(x: Int64, k: int)
    ensures WrapInt64(x + k * 0x1_0000_0000_0000_0000) == x
  {
    var n := 0x1_0000_0000_0000_0000;
    assert (x + k * n) % n == x % n by {
      ModShift(x, k, n);
    }
  }
}
