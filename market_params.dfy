/**
 * The market module's parameters: their defaults, the validator paired with each
 * parameter key, and what each validator accepts.
 *
 * A parameter value reaches its validator untyped; `ParamValue` is that value
 * with its Go type, so the type assertion every validator starts with is kept.
 */
module ModuleParams {
  import opened Outcomes
  import opened FixedPoint
  import opened MarketTypes

  datatype Params = Params(
    lotSizeUsd: Dec,
    tickSizeUsd: Dec,
    minQuantityUsd: Dec,
    riskStepSizeUsd: Dec,
    initialMarginBase: Dec,
    initialMarginStep: Dec,
    maxLiquidationOrderTicketUsd: Dec,
    spotMakerFee: Dec,
    futuresMakerFee: Dec,
    spotTakerFee: Dec,
    futuresTakerFee: Dec,
    maintenanceMarginRatio: Dec,
    maxLiquidationOrderDuration: Int64,
    impactSizeUsd: Dec,
    markPriceBand: Uint32,
    lastPriceProtectedBand: Uint32,
    maxActiveMarkets: Uint32,
    tradingBandwidth: Uint32,
    fundingRateBand: Dec,
    lpSpotMakerFee: Dec,
    lpSpotTakerFee: Dec,
    lpFuturesMakerFee: Dec,
    lpFuturesTakerFee: Dec)

  /** A value stored under a parameter key, with its Go type. */
  datatype ParamValue = DecValue(d: Dec) | DurationValue(ns: Int64) | Uint32Value(u: Uint32)

  /** The reason a validator rejects a value. */
  datatype ParamError =
      InvalidParameterType
    | LotSizeNotPositive
    | LotSizeTooLarge
    | TickSizeNotPositive
    | TickSizeTooLarge
    | MinQuantityNotPositive
    | FeeTooLow
    | FeeTooHigh
    | FeeTooPrecise
    | RiskStepSizeNegative
    | InitialMarginBaseNegative
    | InitialMarginStepNegative
    | MaintenanceMarginRatioOutOfRange
    | MaxLiquidationOrderDurationTooShort
    | MarkPriceBandOutOfRange
    | LastPriceProtectedBandOutOfRange
    | MaxActiveMarketsZero
    | TradingBandwidthZero
    | FundingRateBandNegative
    | LPMakerFeePositive
    | LPTakerFeeNotZero

  /**
   * The text each error starts with (the offending value follows it). The
   * duration's text names 30 seconds while the check is 3 seconds, and the
   * funding-rate band's text names the initial margin step.
   */
  function Message(e: ParamError): string
  {
    match e
    case InvalidParameterType => "invalid parameter type"
    case LotSizeNotPositive => "lot_size must be more than zero"
    case LotSizeTooLarge => "lot_size is too large"
    case TickSizeNotPositive => "tick_size must be positive"
    case TickSizeTooLarge => "tick_size is too large"
    case MinQuantityNotPositive => "min_quantity must be positive"
    case FeeTooLow => "fee cannot be less than or equal to -1"
    case FeeTooHigh => "fee cannot be greater or equal to 1"
    case FeeTooPrecise => "taker fee can only have up to 0.1 bps precision"
    case RiskStepSizeNegative => "risk_step_size must not be negative"
    case InitialMarginBaseNegative => "initial_margin_base must not be negative"
    case InitialMarginStepNegative => "initial_margin_step must not be negative"
    case MaintenanceMarginRatioOutOfRange => "maintenance_margin_ratio must between zero and one"
    case MaxLiquidationOrderDurationTooShort => "max_liquidation_order_duration must be at least 30 seconds"
    case MarkPriceBandOutOfRange => "mark_price_band must be between 0 and 20000"
    case LastPriceProtectedBandOutOfRange => "last_price_protected_band must be between 0 and 20000"
    case MaxActiveMarketsZero => "active_markets must be greater than 0"
    case TradingBandwidthZero => "trading_bandwidth must be greater than 0"
    case FundingRateBandNegative => "initial_margin_step must not be negative"
    case LPMakerFeePositive => "maker fee should not be positive"
    case LPTakerFeeNotZero => "taker fee should only be zero"
  }

  // ----- Constants -----

  /** The fee quantum 0.00001 (0.1 basis point) as a decimal. */
  const FeeQuantum: Dec := 10_000_000_000_000

  /** The least liquidation-order duration the parameter check accepts: 3 s. */
  const MinParamLiquidationDuration: int := 3 * NanosPerSecond

  const MaxBand: int := 20000

  // ----- Defaults, as decimals scaled by 10^18 -----

  const DefaultLotSizeUsd: Dec := 1_000_000_000_000_000_000                   // 1
  const DefaultTickSizeUsd: Dec := 1_000_000_000_000_000                      // 0.001
  const DefaultMinQuantityUsd: Dec := 1_000_000_000_000_000_000               // 1
  const DefaultRiskStepSizeUsd: Dec := 100_000_000_000_000_000_000_000        // 100000
  const DefaultInitialMarginBase: Dec := 200_000_000_000_000_000              // 0.2
  const DefaultInitialMarginStep: Dec := 100_000_000_000_000                  // 0.0001
  const DefaultMaxLiquidationOrderTicketUsd: Dec := 100_000_000_000_000_000_000_000  // 100000
  const DefaultSpotMakerFee: Dec := -1_000_000_000_000_000                    // -0.001
  const DefaultFuturesMakerFee: Dec := -200_000_000_000_000                   // -0.0002
  const DefaultSpotTakerFee: Dec := 2_000_000_000_000_000                     // 0.002
  const DefaultFuturesTakerFee: Dec := 500_000_000_000_000                    // 0.0005
  const DefaultMaintenanceMarginRatio: Dec := 700_000_000_000_000_000         // 0.7
  const DefaultMaxLiquidationOrderDuration: Int64 := 60_000_000_000           // 60 s
  const DefaultImpactSizeUsd: Dec := 100_000_000_000_000_000_000_000          // 100000
  const DefaultMarkPriceBand: Uint32 := 100
  const DefaultLastPriceProtectedBand: Uint32 := 200
  const MaxActiveMarkets: Uint32 := 300
  const DefaultTradingBandwidth: Uint32 := 300
  const DefaultFundingRateBand: Dec := 175_200_000_000_000_000_000            // 175.20

  // ----- Constructors -----

  /** `NewParams`: every argument stored in the field of the same name. */
  function NewParams(lotSizeUsd: Dec, tickSizeUsd: Dec, minQuantityUsd: Dec, riskStepSizeUsd: Dec,
                     initialMarginBase: Dec, initialMarginStep: Dec, maxLiquidationOrderTicketUsd: Dec,
                     spotMakerFee: Dec, futuresMakerFee: Dec, spotTakerFee: Dec, futuresTakerFee: Dec,
                     maintenanceMarginRatio: Dec, maxLiquidationOrderDuration: Int64, impactSizeUsd: Dec,
                     markPriceBand: Uint32, lastPriceProtectedBand: Uint32, maxActiveMarkets: Uint32,
                     tradingBandwidth: Uint32, fundingRateBand: Dec, lpSpotMakerFee: Dec,
                     lpSpotTakerFee: Dec, lpFuturesMakerFee: Dec, lpFuturesTakerFee: Dec): Params
  {
    Params(
      lotSizeUsd := lotSizeUsd,
      tickSizeUsd := tickSizeUsd,
      minQuantityUsd := minQuantityUsd,
      riskStepSizeUsd := riskStepSizeUsd,
      initialMarginBase := initialMarginBase,
      initialMarginStep := initialMarginStep,
      maxLiquidationOrderTicketUsd := maxLiquidationOrderTicketUsd,
      futuresMakerFee := futuresMakerFee,
      spotMakerFee := spotMakerFee,
      spotTakerFee := spotTakerFee,
      futuresTakerFee := futuresTakerFee,
      maintenanceMarginRatio := maintenanceMarginRatio,
      maxLiquidationOrderDuration := maxLiquidationOrderDuration,
      impactSizeUsd := impactSizeUsd,
      markPriceBand := markPriceBand,
      lastPriceProtectedBand := lastPriceProtectedBand,
      maxActiveMarkets := maxActiveMarkets,
      tradingBandwidth := tradingBandwidth,
      fundingRateBand := fundingRateBand,
      lpSpotMakerFee := lpSpotMakerFee,
      lpSpotTakerFee := lpSpotTakerFee,
      lpFuturesMakerFee := lpFuturesMakerFee,
      lpFuturesTakerFee := lpFuturesTakerFee)
  }

  /** Building parameters from the fields of p gives p back: no argument lands in another field. */
  lemma NewParamsFromFields(p: Params)
    ensures NewParams(p.lotSizeUsd, p.tickSizeUsd, p.minQuantityUsd, p.riskStepSizeUsd,
                      p.initialMarginBase, p.initialMarginStep, p.maxLiquidationOrderTicketUsd,
                      p.spotMakerFee, p.futuresMakerFee, p.spotTakerFee, p.futuresTakerFee,
                      p.maintenanceMarginRatio, p.maxLiquidationOrderDuration, p.impactSizeUsd,
                      p.markPriceBand, p.lastPriceProtectedBand, p.maxActiveMarkets,
                      p.tradingBandwidth, p.fundingRateBand, p.lpSpotMakerFee,
                      p.lpSpotTakerFee, p.lpFuturesMakerFee, p.lpFuturesTakerFee) == p
  {
  }

  /** `DefaultParams`. */
  function DefaultParams(): Params
  {
    NewParams(DefaultLotSizeUsd, DefaultTickSizeUsd, DefaultMinQuantityUsd, DefaultRiskStepSizeUsd,
              DefaultInitialMarginBase, DefaultInitialMarginStep, DefaultMaxLiquidationOrderTicketUsd,
              DefaultSpotMakerFee, DefaultFuturesMakerFee, DefaultSpotTakerFee, DefaultFuturesTakerFee,
              DefaultMaintenanceMarginRatio, DefaultMaxLiquidationOrderDuration, DefaultImpactSizeUsd,
              DefaultMarkPriceBand, DefaultLastPriceProtectedBand, MaxActiveMarkets,
              DefaultTradingBandwidth, DefaultFundingRateBand, 0, 0, 0, 0)
  }

  /** `Params.Validate` checks nothing and accepts every parameter set. */
  function Validate(p: Params): (r: Outcome<ParamError>)
    ensures r.Pass?
  {
    Pass
  }

  // ----- Validators -----

  function ValidateLotSize(x: Dec): (r: Outcome<ParamError>)
    ensures r.Pass? <==> 0 < x <= MaxLotSize * Precision
  {
    if x <= 0 then Fail(LotSizeNotPositive)
    else if x > DecFromInt(MaxLotSize) then Fail(LotSizeTooLarge)
    else Pass
  }

  function ValidateTickSize(x: Dec): (r: Outcome<ParamError>)
    ensures r.Pass? <==> 0 < x <= MaxTickSize
  {
    if x <= 0 then Fail(TickSizeNotPositive)
    else if x > MaxTickSize then Fail(TickSizeTooLarge)
    else Pass
  }

  function ValidateMinQuantity(x: Dec): (r: Outcome<ParamError>)
    ensures r.Pass? <==> x > 0
  {
    if x <= 0 then Fail(MinQuantityNotPositive) else Pass
  }

  /** A fee in (-1, 1) whose quotient by 0.00001 is an integer. */
  function ValidateFee(fee: Dec): Outcome<ParamError>
  {
    if fee <= -OneDec then Fail(FeeTooLow)
    else if fee >= OneDec then Fail(FeeTooHigh)
    else if !IsInteger(Quo(fee, FeeQuantum)) then Fail(FeeTooPrecise)
    else Pass
  }

  /** Dividing a fee by 0.00001 scales its decimal by 10^5, exactly. */
  lemma FeeQuotient(fee: Dec)
    ensures Quo(fee, FeeQuantum) == fee * 100_000
  {
    var x := fee * 100_000_000_000_000_000_000_000;
    assert fee * Precision * Precision == x * FeeQuantum;
    TruncQuoExact(x, FeeQuantum);
    var y := fee * 100_000;
    assert x == y * Precision;
    ModUnique(x, Precision, y, 0);
    MulCancel(ChopRound(x), y, Precision);
  }

  /** A multiple of 10^5 has no fractional digits exactly when the fee is a whole number of quanta. */
  lemma ScaledFeeInteger(fee: Dec)
    ensures IsInteger(fee * 100_000) <==> fee % FeeQuantum == 0
  {
    var q, s := fee / FeeQuantum, fee % FeeQuantum;
    assert fee == q * FeeQuantum + s;
    assert fee * 100_000 == q * Precision + s * 100_000;
    ModUnique(fee * 100_000, Precision, q, s * 100_000);
  }

  /** `validateFee` accepts exactly the fees in (-1, 1) that are whole multiples of 0.00001. */
  lemma FeeAcceptedIff(fee: Dec)
    ensures ValidateFee(fee).Pass? <==> -OneDec < fee < OneDec && fee % FeeQuantum == 0
  {
    FeeQuotient(fee);
    ScaledFeeInteger(fee);
  }

  /** Fees are rejected for their range before their precision. */
  lemma FeeRangeReportedFirst(fee: Dec)
    requires fee <= -OneDec || fee >= OneDec
    ensures ValidateFee(fee).Fail? && ValidateFee(fee).error != FeeTooPrecise
  {
  }

  function ValidateRiskStepSize(x: Dec): (r: Outcome<ParamError>)
    ensures r.Pass? <==> x >= 0
  {
    if x < 0 then Fail(RiskStepSizeNegative) else Pass
  }

  function ValidateInitialMarginBase(x: Dec): (r: Outcome<ParamError>)
    ensures r.Pass? <==> x >= 0
  {
    if x < 0 then Fail(InitialMarginBaseNegative) else Pass
  }

  function ValidateInitialMarginStep(x: Dec): (r: Outcome<ParamError>)
    ensures r.Pass? <==> x >= 0
  {
    if x < 0 then Fail(InitialMarginStepNegative) else Pass
  }

  function ValidateMaintenanceMarginRatio(x: Dec): (r: Outcome<ParamError>)
    ensures r.Pass? <==> 0 < x < OneDec
  {
    if x <= 0 || x >= OneDec then Fail(MaintenanceMarginRatioOutOfRange) else Pass
  }

  /**
   * `validateMaxLiquidationOrderDuration`: `Duration.Seconds()` below 3. For a
   * whole number of nanoseconds this is the duration being under 3e9 ns.
   */
  function ValidateMaxLiquidationOrderDuration(ns: Int64): (r: Outcome<ParamError>)
    ensures r.Pass? <==> ns >= MinParamLiquidationDuration
  {
    if ns < MinParamLiquidationDuration then Fail(MaxLiquidationOrderDurationTooShort) else Pass
  }

  function ValidateMarkPriceBand(x: Uint32): (r: Outcome<ParamError>)
    ensures r.Pass? <==> 1 <= x <= MaxBand
  {
    if x == 0 || x > MaxBand then Fail(MarkPriceBandOutOfRange) else Pass
  }

  function ValidateLastPriceProtectedBand(x: Uint32): (r: Outcome<ParamError>)
    ensures r.Pass? <==> 1 <= x <= MaxBand
  {
    if x == 0 || x > MaxBand then Fail(LastPriceProtectedBandOutOfRange) else Pass
  }

  function ValidateMaxActiveMarkets(x: Uint32): (r: Outcome<ParamError>)
    ensures r.Pass? <==> x != 0
  {
    if x == 0 then Fail(MaxActiveMarketsZero) else Pass
  }

  function ValidateTradingBandwidth(x: Uint32): (r: Outcome<ParamError>)
    ensures r.Pass? <==> x != 0
  {
    if x == 0 then Fail(TradingBandwidthZero) else Pass
  }

  function ValidateFundingRateBand(x: Dec): (r: Outcome<ParamError>)
    ensures r.Pass? <==> x >= 0
  {
    if x < 0 then Fail(FundingRateBandNegative) else Pass
  }

  function ValidateLPMakerFee(x: Dec): (r: Outcome<ParamError>)
    ensures r.Pass? <==> x <= 0
  {
    if x > 0 then Fail(LPMakerFeePositive) else Pass
  }

  function ValidateLPTakerFee(x: Dec): (r: Outcome<ParamError>)
    ensures r.Pass? <==> x == 0
  {
    if x != 0 then Fail(LPTakerFeeNotZero) else Pass
  }

  // ----- Parameter set pairs -----

  /** The validator a key is registered with. */
  datatype Validator =
      LotSizeValidator
    | TickSizeValidator
    | MinQuantityValidator
    | FeeValidator
    | RiskStepSizeValidator
    | InitialMarginBaseValidator
    | InitialMarginStepValidator
    | MaintenanceMarginRatioValidator
    | MaxLiquidationOrderTicketValidator
    | MaxLiquidationOrderDurationValidator
    | ImpactSizeValidator
    | MarkPriceBandValidator
    | LastPriceProtectedBandValidator
    | MaxActiveMarketsValidator
    | TradingBandwidthValidator
    | FundingRateBandValidator
    | LPMakerFeeValidator
    | LPTakerFeeValidator

  /**
   * A validator applied to an untyped value: a value of the wrong Go type is an
   * invalid parameter type, except for the impact size, whose validator accepts
   * anything, and the maximum liquidation order ticket, whose validator checks
   * only the type.
   */
  function Run(v: Validator, x: ParamValue): Outcome<ParamError>
  {
    match v
    case ImpactSizeValidator => Pass
    case MaxLiquidationOrderDurationValidator =>
      if x.DurationValue? then ValidateMaxLiquidationOrderDuration(x.ns) else Fail(InvalidParameterType)
    case MarkPriceBandValidator =>
      if x.Uint32Value? then ValidateMarkPriceBand(x.u) else Fail(InvalidParameterType)
    case LastPriceProtectedBandValidator =>
      if x.Uint32Value? then ValidateLastPriceProtectedBand(x.u) else Fail(InvalidParameterType)
    case MaxActiveMarketsValidator =>
      if x.Uint32Value? then ValidateMaxActiveMarkets(x.u) else Fail(InvalidParameterType)
    case TradingBandwidthValidator =>
      if x.Uint32Value? then ValidateTradingBandwidth(x.u) else Fail(InvalidParameterType)
    case _ =>
      if !x.DecValue? then Fail(InvalidParameterType)
      else RunOnDec(v, x.d)
  }

  /** The validators that assert a decimal, applied to one. */
  function RunOnDec(v: Validator, d: Dec): Outcome<ParamError>
  {
    match v
    case LotSizeValidator => ValidateLotSize(d)
    case TickSizeValidator => ValidateTickSize(d)
    case MinQuantityValidator => ValidateMinQuantity(d)
    case FeeValidator => ValidateFee(d)
    case RiskStepSizeValidator => ValidateRiskStepSize(d)
    case InitialMarginBaseValidator => ValidateInitialMarginBase(d)
    case InitialMarginStepValidator => ValidateInitialMarginStep(d)
    case MaintenanceMarginRatioValidator => ValidateMaintenanceMarginRatio(d)
    case FundingRateBandValidator => ValidateFundingRateBand(d)
    case LPMakerFeeValidator => ValidateLPMakerFee(d)
    case LPTakerFeeValidator => ValidateLPTakerFee(d)
    case _ => Pass
  }

  /** The key each parameter is stored under; `KeyName` gives its bytes. */
  datatype ParamKey =
      KeyLotSize
    | KeyTickSize
    | KeyMinQuantity
    | KeySpotMakerFee
    | KeyFuturesMakerFee
    | KeySpotTakerFee
    | KeyFuturesTakerFee
    | KeyRiskStepSize
    | KeyInitialMarginBase
    | KeyInitialMarginStep
    | KeyMaintenanceMarginRatio
    | KeyMaxLiquidationOrderTicket
    | KeyMaxLiquidationOrderDuration
    | KeyImpactSize
    | KeyMarkPriceBand
    | KeyLastPriceProtectedBand
    | KeyMaxActiveMarkets
    | KeyTradingBandwidth
    | KeyFundingRateBand
    | KeyLpSpotMakerFee
    | KeyLpSpotTakerFee
    | KeyLpFuturesMakerFee
    | KeyLpFuturesTakerFee

  function KeyName(k: ParamKey): string
  {
    match k
    case KeyLotSize => "DefaultLotSizeUsd"
    case KeyTickSize => "DefaultTickSizeUsd"
    case KeyMinQuantity => "DefaultMinQuantityUsd"
    case KeySpotMakerFee => "DefaultSpotMakerFee"
    case KeyFuturesMakerFee => "DefaultFuturesMakerFee"
    case KeySpotTakerFee => "DefaultSpotTakerFee"
    case KeyFuturesTakerFee => "DefaultFuturesTakerFee"
    case KeyRiskStepSize => "DefaultRiskStepSizeUsd"
    case KeyInitialMarginBase => "DefaultInitialMarginBase"
    case KeyInitialMarginStep => "DefaultInitialMarginStep"
    case KeyMaintenanceMarginRatio => "DefaultMaintenanceMarginRatio"
    case KeyMaxLiquidationOrderTicket => "DefaultMaxLiquidationOrderTicketUsd"
    case KeyMaxLiquidationOrderDuration => "DefaultMaxLiquidationOrderDuration"
    case KeyImpactSize => "DefaultImpactSize"
    case KeyMarkPriceBand => "DefaultMarkPriceBand"
    case KeyLastPriceProtectedBand => "DefaultLastPriceProtectedBand"
    case KeyMaxActiveMarkets => "MaxActiveMarkets"
    case KeyTradingBandwidth => "TradingBandwidth"
    case KeyFundingRateBand => "FundingRateBand"
    case KeyLpSpotMakerFee => "DefaultLPSpotMakerFee"
    case KeyLpSpotTakerFee => "DefaultLPSpotTakerFee"
    case KeyLpFuturesMakerFee => "DefaultLPFuturesMakerFee"
    case KeyLpFuturesTakerFee => "DefaultLPFuturesTakerFee"
  }

  /** A key, the value stored under it and the validator registered for it. */
  datatype ParamSetPair = ParamSetPair(key: ParamKey, value: ParamValue, validator: Validator)

  /** `Params.ParamSetPairs`: every field under its key, with its validator. */
  function ParamSetPairs(p: Params): (pairs: seq<ParamSetPair>)
    ensures |pairs| == 23
  {
    [ ParamSetPair(KeyLotSize, DecValue(p.lotSizeUsd), LotSizeValidator),
      ParamSetPair(KeyTickSize, DecValue(p.tickSizeUsd), TickSizeValidator),
      ParamSetPair(KeyMinQuantity, DecValue(p.minQuantityUsd), MinQuantityValidator),
      ParamSetPair(KeySpotMakerFee, DecValue(p.spotMakerFee), FeeValidator),
      ParamSetPair(KeyFuturesMakerFee, DecValue(p.futuresMakerFee), FeeValidator),
      ParamSetPair(KeySpotTakerFee, DecValue(p.spotTakerFee), FeeValidator),
      ParamSetPair(KeyFuturesTakerFee, DecValue(p.futuresTakerFee), FeeValidator),
      ParamSetPair(KeyRiskStepSize, DecValue(p.riskStepSizeUsd), RiskStepSizeValidator),
      ParamSetPair(KeyInitialMarginBase, DecValue(p.initialMarginBase), InitialMarginBaseValidator),
      ParamSetPair(KeyInitialMarginStep, DecValue(p.initialMarginStep), InitialMarginStepValidator),
      ParamSetPair(KeyMaintenanceMarginRatio, DecValue(p.maintenanceMarginRatio),
                   MaintenanceMarginRatioValidator),
      ParamSetPair(KeyMaxLiquidationOrderTicket, DecValue(p.maxLiquidationOrderTicketUsd),
                   MaxLiquidationOrderTicketValidator),
      ParamSetPair(KeyMaxLiquidationOrderDuration, DurationValue(p.maxLiquidationOrderDuration),
                   MaxLiquidationOrderDurationValidator),
      ParamSetPair(KeyImpactSize, DecValue(p.impactSizeUsd), ImpactSizeValidator),
      ParamSetPair(KeyMarkPriceBand, Uint32Value(p.markPriceBand), MarkPriceBandValidator),
      ParamSetPair(KeyLastPriceProtectedBand, Uint32Value(p.lastPriceProtectedBand),
                   LastPriceProtectedBandValidator),
      ParamSetPair(KeyMaxActiveMarkets, Uint32Value(p.maxActiveMarkets), MaxActiveMarketsValidator),
      ParamSetPair(KeyTradingBandwidth, Uint32Value(p.tradingBandwidth), TradingBandwidthValidator),
      ParamSetPair(KeyFundingRateBand, DecValue(p.fundingRateBand), FundingRateBandValidator),
      ParamSetPair(KeyLpSpotMakerFee, DecValue(p.lpSpotMakerFee), LPMakerFeeValidator),
      ParamSetPair(KeyLpSpotTakerFee, DecValue(p.lpSpotTakerFee), LPTakerFeeValidator),
      ParamSetPair(KeyLpFuturesMakerFee, DecValue(p.lpFuturesMakerFee), LPMakerFeeValidator),
      ParamSetPair(KeyLpFuturesTakerFee, DecValue(p.lpFuturesTakerFee), LPTakerFeeValidator) ]
  }

  /** Every pair's value passes the validator registered with it. */
  predicate AllPairsPass(p: Params)
  {
    forall i :: 0 <= i < |ParamSetPairs(p)| ==>
      Run(ParamSetPairs(p)[i].validator, ParamSetPairs(p)[i].value).Pass?
  }

  /** A fee the fee validator accepts. */
  predicate FeeInRange(fee: Dec)
  {
    -OneDec < fee < OneDec && fee % FeeQuantum == 0
  }

  /** The ranges the registered validators demand, field by field. */
  predicate FieldsInRange(p: Params)
  {
    SizesInRange(p) && FeesInRange(p) && MarginsInRange(p) && LimitsInRange(p)
  }

  predicate SizesInRange(p: Params)
  {
    0 < p.lotSizeUsd <= DecFromInt(MaxLotSize) && 0 < p.tickSizeUsd <= MaxTickSize && p.minQuantityUsd > 0
  }

  predicate FeesInRange(p: Params)
  {
    && FeeInRange(p.spotMakerFee) && FeeInRange(p.futuresMakerFee)
    && FeeInRange(p.spotTakerFee) && FeeInRange(p.futuresTakerFee)
  }

  predicate MarginsInRange(p: Params)
  {
    && p.riskStepSizeUsd >= 0 && p.initialMarginBase >= 0 && p.initialMarginStep >= 0
    && 0 < p.maintenanceMarginRatio < OneDec
    && p.maxLiquidationOrderDuration >= MinParamLiquidationDuration
    && 1 <= p.markPriceBand <= MaxBand && 1 <= p.lastPriceProtectedBand <= MaxBand
  }

  predicate LimitsInRange(p: Params)
  {
    && p.maxActiveMarkets != 0 && p.tradingBandwidth != 0
    && p.fundingRateBand >= 0
    && p.lpSpotMakerFee <= 0 && p.lpFuturesMakerFee <= 0
    && p.lpSpotTakerFee == 0 && p.lpFuturesTakerFee == 0
  }

  /** Every pair carries a value of the Go type its validator asserts. */
  lemma PairsWellTyped(p: Params)
    ensures forall i :: 0 <= i < |ParamSetPairs(p)| ==>
              Run(ParamSetPairs(p)[i].validator, ParamSetPairs(p)[i].value) != Fail(InvalidParameterType)
  {
    var pairs := ParamSetPairs(p);
    forall i | 0 <= i < |pairs|
      ensures Run(pairs[i].validator, pairs[i].value) != Fail(InvalidParameterType)
    {
      assert pairs[i].validator.FeeValidator? ==> ValidateFee(pairs[i].value.d) != Fail(InvalidParameterType);
    }
  }

  /** Parameters whose fields are in range pass every registered validator. */
  lemma InRangePassesPairs(p: Params)
    requires FieldsInRange(p)
    ensures AllPairsPass(p)
  {
    var pairs := ParamSetPairs(p);
    forall i | 0 <= i < |pairs|
      ensures Run(pairs[i].validator, pairs[i].value).Pass?
    {
      if i < 3 {
      } else if i < 7 {
        FeeAcceptedIff(pairs[i].value.d);
      } else if i < 16 {
      } else {
      }
    }
  }

  /** Parameters that pass every registered validator have their fields in range. */
  lemma PassingPairsInRange(p: Params)
    requires AllPairsPass(p)
    ensures FieldsInRange(p)
  {
    PassingPairsSizes(p);
    PassingPairsFees(p);
    PassingPairsMargins(p);
    PassingPairsLimits(p);
  }

  lemma PassingPairsSizes(p: Params)
    requires AllPairsPass(p)
    ensures SizesInRange(p)
  {
    var pairs := ParamSetPairs(p);
    assert Run(pairs[0].validator, pairs[0].value).Pass?;
    assert Run(pairs[1].validator, pairs[1].value).Pass?;
    assert Run(pairs[2].validator, pairs[2].value).Pass?;
  }

  lemma PassingPairsFees(p: Params)
    requires AllPairsPass(p)
    ensures FeesInRange(p)
  {
    var pairs := ParamSetPairs(p);
    assert Run(pairs[3].validator, pairs[3].value).Pass?;
    assert Run(pairs[4].validator, pairs[4].value).Pass?;
    assert Run(pairs[5].validator, pairs[5].value).Pass?;
    assert Run(pairs[6].validator, pairs[6].value).Pass?;
    FeeAcceptedIff(p.spotMakerFee);
    FeeAcceptedIff(p.futuresMakerFee);
    FeeAcceptedIff(p.spotTakerFee);
    FeeAcceptedIff(p.futuresTakerFee);
  }

  lemma PassingPairsMargins(p: Params)
    requires AllPairsPass(p)
    ensures MarginsInRange(p)
  {
    var pairs := ParamSetPairs(p);
    assert Run(pairs[7].validator, pairs[7].value).Pass?;
    assert Run(pairs[8].validator, pairs[8].value).Pass?;
    assert Run(pairs[9].validator, pairs[9].value).Pass?;
    assert Run(pairs[10].validator, pairs[10].value).Pass?;
    assert Run(pairs[12].validator, pairs[12].value).Pass?;
    assert Run(pairs[14].validator, pairs[14].value).Pass?;
    assert Run(pairs[15].validator, pairs[15].value).Pass?;
  }

  lemma PassingPairsLimits(p: Params)
    requires AllPairsPass(p)
    ensures LimitsInRange(p)
  {
    var pairs := ParamSetPairs(p);
    assert Run(pairs[16].validator, pairs[16].value).Pass?;
    assert Run(pairs[17].validator, pairs[17].value).Pass?;
    assert Run(pairs[18].validator, pairs[18].value).Pass?;
    assert Run(pairs[19].validator, pairs[19].value).Pass?;
    assert Run(pairs[20].validator, pairs[20].value).Pass?;
    assert Run(pairs[21].validator, pairs[21].value).Pass?;
    assert Run(pairs[22].validator, pairs[22].value).Pass?;
  }

  /** The registered validators accept a parameter set exactly when its fields are in range. */
  lemma AllPairsPassIff(p: Params)
    ensures AllPairsPass(p) <==> FieldsInRange(p)
  {
    if FieldsInRange(p) {
      InRangePassesPairs(p);
    }
    if AllPairsPass(p) {
      PassingPairsInRange(p);
    }
  }

  /** `DefaultParams()` passes every validator registered in `ParamSetPairs`. */
  lemma DefaultParamsPassPairs()
    ensures AllPairsPass(DefaultParams())
  {
    var p := DefaultParams();
    assert p.spotMakerFee == -100 * FeeQuantum;
    assert p.futuresMakerFee == -20 * FeeQuantum;
    assert p.spotTakerFee == 200 * FeeQuantum;
    assert p.futuresTakerFee == 50 * FeeQuantum;
    assert FieldsInRange(p);
    InRangePassesPairs(p);
  }
}
