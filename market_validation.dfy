/**
 * `Market.ValidateBasic`: an ordered chain of rules in which the first rule that
 * fails decides the error. The general rules run first, then the rules of the
 * market's type; a market type other than spot or futures is rejected.
 *
 * Each phase is written twice: as the ordered check the code runs
 * (`GeneralCheck`, `SpotCheck`, `FuturesCheck`) and as an order-free conjunction of
 * the rules (`GeneralRules`, `SpotRules`, `FuturesRules`); the lemmas connect them.
 */
module MarketValidation {
  import opened Outcomes
  import opened FixedPoint
  import opened MarketTypes

  /** The registered error a failure wraps. */
  datatype ErrorKind = ErrInvalidMarket | ErrInvalidRequest

  /** The rule a failure reports; `Message` gives the reason text the error carries. */
  datatype Rule =
      NameEmpty
    | NameCharset
    | NameTooLong
    | DisplayNameEmpty
    | DisplayNameCharset
    | DisplayNameTooLong
    | DescriptionEmpty
    | BaseEmpty
    | QuoteEmpty
    | LotSizeNotPositive
    | LotSizeTooLarge
    | TickSizeNotPositive
    | TickLotNotInteger
    | TickSizeTooLarge
    | MinQuantityNotPositive
    | MinQuantityBelowLotSize
    | MinQuantityNotDivisible
    | SpotRiskStepSize
    | SpotInitialMarginBase
    | SpotInitialMarginStep
    | SpotMaintenanceMarginRatio
    | SpotMaxLiquidationOrderTicket
    | SpotImpactSize
    | SpotMarkPriceBand
    | SpotLastPriceProtectedBand
    | SpotIndexOracleId
    | SpotExpiryTime
    | SpotMaxLiquidationOrderDuration
    | FuturesInitialMarginBase
    | FuturesMaintenanceMarginRatio
    | FuturesRiskStepSizeNegative
    | FuturesInitialMarginStepNegative
    | FuturesStepsNotCoZero
    | FuturesMaxLiquidationOrderTicket
    | FuturesImpactSize
    | FuturesMarkPriceBand
    | FuturesLastPriceProtectedBand
    | FuturesIndexOracleId
    | FuturesMaxLiquidationOrderDuration
    | FuturesExpiryTime
    | InvalidMarketType

  datatype MarketError = MarketError(kind: ErrorKind, rule: Rule)

  /** The reason text each rule wraps its error with (values formatted into it are left out). */
  function Message(r: Rule): string
  {
    match r
    case NameEmpty => "name must not be empty"
    case NameCharset => "name must contain only a-z, A-Z, 0-9, _, '.' or '/'"
    case NameTooLong => "name must be equal or less than 128 in length"
    case DisplayNameEmpty => "display_name must not be empty"
    case DisplayNameCharset => "display_name must contain only a-z, A-Z, 0-9, _, space, or '.'"
    case DisplayNameTooLong => "display_name must be equal or less than 128 in length"
    case DescriptionEmpty => "description must not be empty"
    case BaseEmpty => "base must not be empty"
    case QuoteEmpty => "base must not be empty"
    case LotSizeNotPositive => "lot_size must be more than zero"
    case LotSizeTooLarge => "lot_size is too large"
    case TickSizeNotPositive => "tick_size must be positive"
    case TickLotNotInteger => "tick_size * lot_size must be an integer"
    case TickSizeTooLarge => "tick_size is too large"
    case MinQuantityNotPositive => "min_quantity must be positive"
    case MinQuantityBelowLotSize => "min_quantity must be greater or equal to lot_size"
    case MinQuantityNotDivisible => "MinQuantity is not divisible by lotSize"
    case SpotRiskStepSize => "risk_step_size for spot markets must be zero"
    case SpotInitialMarginBase => "initial_margin_base for spot markets must be 100%"
    case SpotInitialMarginStep => "initial_margin_step for spot markets must be zero"
    case SpotMaintenanceMarginRatio => "maintenance_margin_ratio for spot markets must be zero"
    case SpotMaxLiquidationOrderTicket => "max_liquidation_order_ticket for spot markets must be zero"
    case SpotImpactSize => "impact_size for spot markets must be zero"
    case SpotMarkPriceBand => "mark_price_band for spot markets must be zero"
    case SpotLastPriceProtectedBand => "last_price_protected_band for spot markets must be zero"
    case SpotIndexOracleId => "index_oracle_id for spot markets must be empty"
    case SpotExpiryTime => "expiry_time for spot markets must be zero"
    case SpotMaxLiquidationOrderDuration => "max_liquidation_order_duration for spot markets must be zero"
    case FuturesInitialMarginBase => "initial_margin_base for future markets must be positive"
    case FuturesMaintenanceMarginRatio => "maintenance_margin_ratio for futures markets must between zero and one"
    case FuturesRiskStepSizeNegative => "risk_step_size must not be negative"
    case FuturesInitialMarginStepNegative => "initial_margin_step must not be negative"
    case FuturesStepsNotCoZero => "risk_step_size and initial_margin_step must be either both zero or both not zero"
    case FuturesMaxLiquidationOrderTicket => "max_liquidation_order_ticket must be at least 1000x of min_quantity"
    case FuturesImpactSize => "impact_size for futures markets must be positive"
    case FuturesMarkPriceBand => "mark_price_band for futures markets must be between 0 and 20000"
    case FuturesLastPriceProtectedBand => "last_price_protected_band must be between 0 and 20000"
    case FuturesIndexOracleId => "index_oracle_id (empty) is required for futures markets"
    case FuturesMaxLiquidationOrderDuration => "max_liquidation_order_duration must be at least 30 seconds"
    case FuturesExpiryTime => "market expiry time's unix must be less than 253402300800"
    case InvalidMarketType => "market_type is invalid"
  }

  /** Expiry times must be before 10000-01-01T00:00:00Z, in Unix seconds. */
  const MaxExpiryUnix: int := 253402300800

  /** The least liquidation-order duration of a futures market: 30 s. */
  const MinFuturesLiquidationDuration: int := 30 * NanosPerSecond

  const MaxPriceBand: int := 20000

  predicate NameChar(c: char)
  {
    'a' <= c <= 'z' || 'A' <= c <= 'Z' || '0' <= c <= '9' || c == '_' || c == '.' || c == '/'
  }

  predicate DisplayNameChar(c: char)
  {
    'a' <= c <= 'z' || 'A' <= c <= 'Z' || '0' <= c <= '9' || c == '_' || c == '.' || c == ' '
  }

  /** The name matches `^[a-zA-Z0-9_./]+$`. */
  predicate MatchesNamePattern(s: string)
  {
    |s| > 0 && forall i :: 0 <= i < |s| ==> NameChar(s[i])
  }

  /** The display name matches `^[a-zA-Z0-9_. ]+$`. */
  predicate MatchesDisplayNamePattern(s: string)
  {
    |s| > 0 && forall i :: 0 <= i < |s| ==> DisplayNameChar(s[i])
  }

  /** `tick_size * lot_size` has no fractional digits. */
  predicate TickLotIntegral(m: Market)
  {
    IsInteger(m.tickSize * m.lotSize)
  }

  /** `min_quantity mod lot_size` is zero. */
  predicate MinQuantityDivisible(m: Market)
    requires m.lotSize != 0
  {
    m.minQuantity % m.lotSize == 0
  }

  function Invalid(rule: Rule): Outcome<MarketError>
  {
    Fail(MarketError(ErrInvalidMarket, rule))
  }

  /** The general rules, in the order the code checks them. */
  function GeneralCheck(m: Market): Outcome<MarketError>
  {
    if m.name == "" then Invalid(NameEmpty)
    else if !MatchesNamePattern(m.name) then
      Invalid(NameCharset)
    else if |m.name| > MaxMarketNameLength then
      Invalid(NameTooLong)
    else if m.displayName == "" then Invalid(DisplayNameEmpty)
    else if !MatchesDisplayNamePattern(m.displayName) then
      Invalid(DisplayNameCharset)
    else if |m.displayName| > MaxMarketDisplayNameLength then
      Invalid(DisplayNameTooLong)
    else if m.description == "" then Invalid(DescriptionEmpty)
    else if m.base == "" then Invalid(BaseEmpty)
    else if m.quote == "" then Invalid(QuoteEmpty)
    else if m.lotSize <= 0 then Invalid(LotSizeNotPositive)
    else if m.lotSize > MaxLotSize then Invalid(LotSizeTooLarge)
    else if m.tickSize <= 0 then Invalid(TickSizeNotPositive)
    else if !TickLotIntegral(m) then Invalid(TickLotNotInteger)
    else if m.tickSize > MaxTickSize then Invalid(TickSizeTooLarge)
    else if m.minQuantity <= 0 then Invalid(MinQuantityNotPositive)
    else if m.minQuantity < m.lotSize then Invalid(MinQuantityBelowLotSize)
    else if !MinQuantityDivisible(m) then Invalid(MinQuantityNotDivisible)
    else Pass
  }

  /** The spot rules, in the order the code checks them. */
  function SpotCheck(m: Market): Outcome<MarketError>
  {
    if m.riskStepSize != 0 then Invalid(SpotRiskStepSize)
    else if m.initialMarginBase != OneDec then Invalid(SpotInitialMarginBase)
    else if m.initialMarginStep != 0 then Invalid(SpotInitialMarginStep)
    else if m.maintenanceMarginRatio != 0 then
      Invalid(SpotMaintenanceMarginRatio)
    else if m.maxLiquidationOrderTicket != 0 then
      Invalid(SpotMaxLiquidationOrderTicket)
    else if m.impactSize != 0 then Invalid(SpotImpactSize)
    else if m.markPriceBand != 0 then Invalid(SpotMarkPriceBand)
    else if m.lastPriceProtectedBand != 0 then
      Invalid(SpotLastPriceProtectedBand)
    else if m.indexOracleId != "" then Invalid(SpotIndexOracleId)
    else if ExpiryUnix(m) != 0 then Invalid(SpotExpiryTime)
    else if m.maxLiquidationOrderDuration != 0 then
      Invalid(SpotMaxLiquidationOrderDuration)
    else Pass
  }

  /** The futures rules, in the order the code checks them. */
  function FuturesCheck(m: Market): Outcome<MarketError>
  {
    if m.initialMarginBase <= 0 then Invalid(FuturesInitialMarginBase)
    else if m.maintenanceMarginRatio <= 0 || m.maintenanceMarginRatio >= OneDec then
      Invalid(FuturesMaintenanceMarginRatio)
    else if m.riskStepSize < 0 then Invalid(FuturesRiskStepSizeNegative)
    else if m.initialMarginStep < 0 then Invalid(FuturesInitialMarginStepNegative)
    else if (m.riskStepSize == 0) != (m.initialMarginStep == 0) then
      Invalid(FuturesStepsNotCoZero)
    else if m.maxLiquidationOrderTicket * 1000 < m.minQuantity then
      Invalid(FuturesMaxLiquidationOrderTicket)
    else if m.impactSize <= 0 then Invalid(FuturesImpactSize)
    else if m.markPriceBand == 0 || m.markPriceBand > MaxPriceBand then
      Invalid(FuturesMarkPriceBand)
    else if m.lastPriceProtectedBand == 0 || m.lastPriceProtectedBand > MaxPriceBand then
      Invalid(FuturesLastPriceProtectedBand)
    else if m.indexOracleId == "" then Invalid(FuturesIndexOracleId)
    else if m.maxLiquidationOrderDuration < MinFuturesLiquidationDuration then
      Invalid(FuturesMaxLiquidationOrderDuration)
    else if ExpiryUnix(m) >= MaxExpiryUnix then
      Fail(MarketError(ErrInvalidRequest, FuturesExpiryTime))
    else Pass
  }

  /** `Market.ValidateBasic`: the general phase, then the phase of the market's type. */
  function ValidateBasic(m: Market): (r: Outcome<MarketError>)
    ensures r.Pass? <==> GeneralRules(m) && TypeRules(m)
    ensures !GeneralRules(m) ==> r == GeneralCheck(m) && r.Fail?
  {
    GeneralCheckMeaning(m);
    SpotCheckMeaning(m);
    FuturesCheckMeaning(m);
    match GeneralCheck(m)
    case Fail(e) => Fail(e)
    case Pass =>
      if m.marketType == SpotMarket then SpotCheck(m)
      else if m.marketType == FuturesMarket then FuturesCheck(m)
      else Invalid(InvalidMarketType)
  }

  // ----- The rules as order-free conjunctions -----

  predicate GeneralRules(m: Market)
  {
    && MatchesNamePattern(m.name) && |m.name| <= MaxMarketNameLength
    && MatchesDisplayNamePattern(m.displayName) && |m.displayName| <= MaxMarketDisplayNameLength
    && m.description != "" && m.base != "" && m.quote != ""
    && 0 < m.lotSize <= MaxLotSize
    && 0 < m.tickSize <= MaxTickSize
    && TickLotIntegral(m)
    && m.minQuantity >= m.lotSize
    && MinQuantityDivisible(m)
  }

  /** A spot market has every margin, risk, band, oracle, expiry and duration field at zero. */
  predicate SpotRules(m: Market)
  {
    && m.riskStepSize == 0 && m.initialMarginBase == OneDec && m.initialMarginStep == 0
    && m.maintenanceMarginRatio == 0 && m.maxLiquidationOrderTicket == 0 && m.impactSize == 0
    && m.markPriceBand == 0 && m.lastPriceProtectedBand == 0 && m.indexOracleId == ""
    && ExpiryUnix(m) == 0 && m.maxLiquidationOrderDuration == 0
  }

  /** The futures rules other than the bound on the expiry time. */
  predicate FuturesRulesBeforeExpiry(m: Market)
  {
    && m.initialMarginBase > 0
    && 0 < m.maintenanceMarginRatio < OneDec
    && m.riskStepSize >= 0 && m.initialMarginStep >= 0
    && (m.riskStepSize == 0 <==> m.initialMarginStep == 0)
    && m.maxLiquidationOrderTicket * 1000 >= m.minQuantity
    && m.impactSize > 0
    && 1 <= m.markPriceBand <= MaxPriceBand
    && 1 <= m.lastPriceProtectedBand <= MaxPriceBand
    && m.indexOracleId != ""
    && m.maxLiquidationOrderDuration >= MinFuturesLiquidationDuration
  }

  predicate FuturesRules(m: Market)
  {
    FuturesRulesBeforeExpiry(m) && ExpiryUnix(m) < MaxExpiryUnix
  }

  predicate TypeRules(m: Market)
  {
    || (m.marketType == SpotMarket && SpotRules(m))
    || (m.marketType == FuturesMarket && FuturesRules(m))
  }

  // ----- Each ordered check passes exactly when its rules hold -----

  lemma GeneralCheckMeaning(m: Market)
    ensures GeneralCheck(m).Pass? <==> GeneralRules(m)
  {
  }

  lemma GeneralCheckKind(m: Market)
    ensures GeneralCheck(m).Fail? ==> GeneralCheck(m).error.kind == ErrInvalidMarket
  {
  }

  lemma SpotCheckMeaning(m: Market)
    ensures SpotCheck(m).Pass? <==> SpotRules(m)
  {
  }

  lemma SpotCheckKind(m: Market)
    ensures SpotCheck(m).Fail? ==> SpotCheck(m).error.kind == ErrInvalidMarket
  {
  }

  lemma FuturesCheckMeaning(m: Market)
    ensures FuturesCheck(m).Pass? <==> FuturesRules(m)
  {
    if m.initialMarginBase <= 0 {
    } else if m.maintenanceMarginRatio <= 0 || m.maintenanceMarginRatio >= OneDec {
    } else if m.riskStepSize < 0 || m.initialMarginStep < 0 {
    } else if (m.riskStepSize == 0) != (m.initialMarginStep == 0) {
    } else if m.maxLiquidationOrderTicket * 1000 < m.minQuantity {
    } else if m.impactSize <= 0 {
    } else if m.markPriceBand == 0 || m.markPriceBand > MaxPriceBand {
    } else if m.lastPriceProtectedBand == 0 || m.lastPriceProtectedBand > MaxPriceBand {
    } else if m.indexOracleId == "" {
    } else if m.maxLiquidationOrderDuration < MinFuturesLiquidationDuration {
    }
  }

  lemma FuturesCheckKind(m: Market)
    ensures FuturesCheck(m).Fail? ==>
              (FuturesCheck(m).error.kind == ErrInvalidRequest <==> FuturesRulesBeforeExpiry(m))
  {
    if m.initialMarginBase <= 0 {
    } else if m.maintenanceMarginRatio <= 0 || m.maintenanceMarginRatio >= OneDec {
    } else if m.riskStepSize < 0 || m.initialMarginStep < 0 {
    } else if (m.riskStepSize == 0) != (m.initialMarginStep == 0) {
    } else if m.maxLiquidationOrderTicket * 1000 < m.minQuantity {
    } else if m.impactSize <= 0 {
    } else if m.markPriceBand == 0 || m.markPriceBand > MaxPriceBand {
    } else if m.lastPriceProtectedBand == 0 || m.lastPriceProtectedBand > MaxPriceBand {
    } else if m.indexOracleId == "" {
    } else if m.maxLiquidationOrderDuration < MinFuturesLiquidationDuration {
    }
  }

  // ----- Properties of ValidateBasic -----

  /** A spot market that passes the general rules is accepted exactly when the spot rules hold. */
  lemma SpotAcceptedIff(m: Market)
    requires m.marketType == SpotMarket && GeneralRules(m)
    ensures ValidateBasic(m).Pass? <==> SpotRules(m)
  {
  }

  /** A futures market that passes the general rules is accepted exactly when the futures rules hold. */
  lemma FuturesAcceptedIff(m: Market)
    requires m.marketType == FuturesMarket && GeneralRules(m)
    ensures ValidateBasic(m).Pass? <==> FuturesRules(m)
  {
  }

  /** A market type other than spot and futures is never accepted. */
  lemma OtherMarketTypeRejected(m: Market)
    requires m.marketType != SpotMarket && m.marketType != FuturesMarket
    ensures ValidateBasic(m).Fail?
    ensures GeneralRules(m) ==> ValidateBasic(m) == Invalid(InvalidMarketType)
  {
  }

  /**
   * Every failure wraps ErrInvalidMarket except the futures expiry bound, which
   * wraps ErrInvalidRequest and is reported only when every other rule holds.
   */
  lemma OnlyExpiryIsInvalidRequest(m: Market)
    requires ValidateBasic(m).Fail?
    ensures ValidateBasic(m).error.kind == ErrInvalidRequest <==>
              (m.marketType == FuturesMarket && GeneralRules(m) && FuturesRulesBeforeExpiry(m)
               && ExpiryUnix(m) >= MaxExpiryUnix)
  {
    GeneralCheckMeaning(m);
    GeneralCheckKind(m);
    SpotCheckKind(m);
    FuturesCheckKind(m);
  }

  /** A general failure is reported whatever the market type. */
  lemma GeneralFailureIgnoresType(m: Market, t: string)
    requires !GeneralRules(m)
    ensures ValidateBasic(m.(marketType := t)) == ValidateBasic(m)
  {
    GeneralCheckMeaning(m);
    GeneralCheckMeaning(m.(marketType := t));
  }

  /** A bad character in the name is reported before an excessive length. */
  lemma CharsetReportedBeforeLength(m: Market)
    requires m.name != "" && !MatchesNamePattern(m.name)
    ensures ValidateBasic(m) == Invalid(NameCharset)
  {
  }

  /** A fractional tick_size * lot_size is reported before an excessive tick size. */
  lemma TickIntegralityReportedBeforeTickBound(m: Market)
    requires GeneralCheck(m.(tickSize := OneDec, lotSize := 1)).Pass?
    requires 0 < m.lotSize <= MaxLotSize
    requires m.tickSize > 0 && !TickLotIntegral(m)
    ensures ValidateBasic(m) == Invalid(TickLotNotInteger)
  {
  }

  /** An empty quote denomination is reported with the base's message. */
  lemma EmptyQuoteReportsBase(m: Market)
    requires m.quote == "" && m.base != "" && m.description != ""
    requires MatchesNamePattern(m.name) && |m.name| <= MaxMarketNameLength
    requires MatchesDisplayNamePattern(m.displayName) && |m.displayName| <= MaxMarketDisplayNameLength
    ensures ValidateBasic(m) == Invalid(QuoteEmpty)
    ensures Message(QuoteEmpty) == Message(BaseEmpty) == "base must not be empty"
  {
  }

  /** A spot market with lot size 100, tick size 0.01 and minimum quantity 100. */
  function SampleSpotMarket(): Market
  {
    Market("BTC/USDC", "BTC USDC", "bitcoin spot", SpotMarket, "btc", "usdc", 8, 6,
           100, 10_000_000_000_000_000, 100, true,
           0, OneDec, 0, 0,
           0, 0, 0,
           0, 0, "",
           0, false, 300)
  }

  /**
   * The sample spot market is accepted; with a mark price band of 5 it is rejected
   * for that band, and with lot size 1 (tick 0.01 times lot 1 is 0.01) for integrality.
   */
  lemma SampleSpotMarketScenarios()
    ensures ValidateBasic(SampleSpotMarket()) == Pass
    ensures ValidateBasic(SampleSpotMarket().(markPriceBand := 5))
            == Invalid(SpotMarkPriceBand)
    ensures ValidateBasic(SampleSpotMarket().(lotSize := 1, minQuantity := 1))
            == Invalid(TickLotNotInteger)
  {
    var m := SampleSpotMarket();
    assert MatchesNamePattern(m.name);
    assert MatchesDisplayNamePattern(m.displayName);
  }
}
