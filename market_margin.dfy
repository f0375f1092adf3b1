/**
 * The margin formulas of a market: maximum leverage, initial and maintenance
 * margin by risk step, the fee margin of an order, and the size bounds of a
 * risk step.
 */
module MarketMargin {
  import opened FixedPoint
  import opened MarketTypes

  /** A maker and a taker fee rate. */
  datatype TradingFees = TradingFees(makerFee: Dec, takerFee: Dec)

  /** An amount of one denomination, in whole units of it. */
  datatype Coin = Coin(denom: string, amount: int)

  /** 1 as a decimal, scaled once more: the dividend of `OneDec().QuoTruncate`. */
  const OneDecScaled: int := OneDec * Precision

  /**
   * `Market.MaxLeverageDec`: 1 / initial_margin_base, truncated toward zero.
   * Dividing by a zero margin base panics.
   */
  function MaxLeverageDec(m: Market): (r: Dec)
    requires m.initialMarginBase != 0
    ensures m.initialMarginBase > 0 ==>
              r >= 0 && r * m.initialMarginBase <= OneDecScaled < (r + 1) * m.initialMarginBase
    ensures m.initialMarginBase < 0 ==> r <= 0
  {
    TruncQuo(OneDecScaled, m.initialMarginBase)
  }

  /** A larger margin base never allows a larger leverage. */
  lemma MaxLeverageAntitone(m: Market, m': Market)
    requires 0 < m.initialMarginBase <= m'.initialMarginBase
    ensures MaxLeverageDec(m') <= MaxLeverageDec(m)
  {
    var r, r' := MaxLeverageDec(m), MaxLeverageDec(m');
    if r' > r {
      MulMonotone(r + 1, r', m.initialMarginBase, m'.initialMarginBase);
    }
  }

  /** A margin base of 5% gives a leverage of exactly 20. */
  lemma MaxLeverageOfFivePercent(m: Market)
    requires m.initialMarginBase == 50_000_000_000_000_000
    ensures MaxLeverageDec(m) == 20 * OneDec
  {
  }

  /** The risk step of a position: |size| / risk_step_size, truncated toward zero. */
  function RiskStep(m: Market, size: int): (k: int)
    requires m.riskStepSize != 0
    ensures m.riskStepSize > 0 ==> k >= 0 && k * m.riskStepSize <= Abs(size) < (k + 1) * m.riskStepSize
  {
    TruncQuo(Abs(size), m.riskStepSize)
  }

  /**
   * `Market.RequiredInitialMargin`: the margin base plus one margin step per risk
   * step. The risk step divides by risk_step_size with no zero guard, so a zero
   * risk step size panics.
   */
  function RequiredInitialMargin(m: Market, size: int): Dec
    requires m.riskStepSize != 0
  {
    m.initialMarginBase + m.initialMarginStep * RiskStep(m, size)
  }

  /** A position whose size lies in [k * RSS, (k + 1) * RSS) is in risk step k. */
  lemma RiskStepIs(m: Market, size: int, k: int)
    requires m.riskStepSize > 0
    requires k * m.riskStepSize <= Abs(size) < (k + 1) * m.riskStepSize
    ensures RiskStep(m, size) == k
  {
    var j := RiskStep(m, size);
    var n := m.riskStepSize;
    if j < k {
      MulMonotone(j + 1, k, n, n);
    } else if j > k {
      MulMonotone(k + 1, j, n, n);
    }
  }

  /** IM = IMB + IMS * floor(|size| / RSS), with the floor stated by its bounds. */
  lemma InitialMarginAtStep(m: Market, size: int, k: int)
    requires m.riskStepSize > 0
    requires k * m.riskStepSize <= Abs(size) < (k + 1) * m.riskStepSize
    ensures RequiredInitialMargin(m, size) == m.initialMarginBase + m.initialMarginStep * k
  {
    RiskStepIs(m, size, k);
  }

  /** The sign of the position does not matter. */
  lemma InitialMarginSymmetric(m: Market, size: int)
    requires m.riskStepSize != 0
    ensures RequiredInitialMargin(m, -size) == RequiredInitialMargin(m, size)
  {
    assert Abs(-size) == Abs(size);
  }

  /** Below the first risk step the margin is the margin base. */
  lemma InitialMarginBelowFirstStep(m: Market, size: int)
    requires m.riskStepSize > 0 && Abs(size) < m.riskStepSize
    ensures RequiredInitialMargin(m, size) == m.initialMarginBase
  {
    InitialMarginAtStep(m, size, 0);
  }

  /** With a non-negative margin step, a larger position never needs less margin. */
  lemma InitialMarginMonotone(m: Market, size: int, size': int)
    requires m.riskStepSize > 0 && m.initialMarginStep >= 0
    requires Abs(size) <= Abs(size')
    ensures RequiredInitialMargin(m, size) <= RequiredInitialMargin(m, size')
  {
    var k, k' := RiskStep(m, size), RiskStep(m, size');
    if k > k' {
      MulMonotone(k' + 1, k, m.riskStepSize, m.riskStepSize);
    }
    MulMonotone(k, k', m.initialMarginStep, m.initialMarginStep);
  }

  /**
   * A futures market with margin base 0.2, margin step 0.0001 and risk step size
   * 100000 needs 0.2002 for a position of 250000.
   */
  lemma InitialMarginScenario(m: Market)
    requires m.initialMarginBase == 200_000_000_000_000_000
    requires m.initialMarginStep == 100_000_000_000_000
    requires m.riskStepSize == 100_000
    ensures RequiredInitialMargin(m, 250_000) == 200_200_000_000_000_000
  {
    InitialMarginAtStep(m, 250_000, 2);
  }

  /** `Market.RequiredMaintenanceMargin`: the initial margin times the maintenance ratio. */
  function RequiredMaintenanceMargin(m: Market, size: int): Dec
    requires m.riskStepSize != 0
  {
    Mul(RequiredInitialMargin(m, size), m.maintenanceMarginRatio)
  }

  /**
   * With a ratio in [0, 1) and a non-negative initial margin, the maintenance
   * margin lies between zero and the initial margin, and is the initial margin
   * times the ratio rounded to 18 decimals.
   */
  lemma MaintenanceMarginBounds(m: Market, size: int)
    requires m.riskStepSize != 0
    requires 0 <= m.maintenanceMarginRatio < OneDec
    requires RequiredInitialMargin(m, size) >= 0
    ensures 0 <= RequiredMaintenanceMargin(m, size) <= RequiredInitialMargin(m, size)
    ensures 2 * Abs(RequiredMaintenanceMargin(m, size) * Precision
                    - RequiredInitialMargin(m, size) * m.maintenanceMarginRatio) <= Precision
  {
    var im, mmr := RequiredInitialMargin(m, size), m.maintenanceMarginRatio;
    var mm := RequiredMaintenanceMargin(m, size);
    MulMonotone(0, im, 0, mmr);
    MulMonotone(im, im, mmr, OneDec);
    if mm < 0 {
      MulMonotone(1, -mm, Precision, Precision);
    }
    if mm > im {
      MulMonotone(im + 1, mm, Precision, Precision);
    }
  }

  /** The fee rate `FeeMargin` charges: the larger of the taker and maker rates. */
  function MaxFee(fees: TradingFees): (f: Dec)
    ensures f >= fees.takerFee && f >= fees.makerFee
    ensures f == fees.takerFee || f == fees.makerFee
  {
    MaxDec(fees.takerFee, fees.makerFee)
  }

  /**
   * The whole quote units `FeeMargin` reserves for `rate`: quantity * rate * price,
   * each product rounded to 18 decimals, then rounded up to an integer.
   */
  function FeeAmount(quantity: int, price: Dec, rate: Dec): int
  {
    CeilInt(Mul(Mul(DecFromInt(quantity), rate), price))
  }

  /**
   * When quantity * rate * price fits 18 decimals the amount is the smallest
   * integer not below it; the first product always fits.
   */
  lemma FeeAmountIsCeiling(quantity: int, price: Dec, rate: Dec)
    requires MulFits(quantity * rate, price)
    ensures var r := FeeAmount(quantity, price, rate);
            r * Precision * Precision >= quantity * rate * price
            && (r - 1) * Precision * Precision < quantity * rate * price
  {
    var a := Mul(DecFromInt(quantity), rate);
    MulIntExact(quantity, rate);
    var b := Mul(a, price);
    assert b * Precision == quantity * rate * price;
    CeilIntScaled(b);
  }

  /**
   * `Market.FeeMargin` as the code computes it: the worst-case entry fee of an
   * order, in whole units of the quote denomination, rounded up. It panics for a
   * market that is not futures. The rate is never clamped at zero.
   */
  function FeeMarginAsWritten(m: Market, quantity: int, price: Dec, fees: TradingFees): (c: Coin)
    requires m.marketType == FuturesMarket
    ensures c.denom == m.quote
  {
    Coin(m.quote, FeeAmount(quantity, price, MaxFee(fees)))
  }

  /** When both fees are rebates the reserved amount as written is negative. */
  lemma FeeMarginAsWrittenNegative(m: Market)
    requires m.marketType == FuturesMarket
    ensures FeeMarginAsWritten(m, 10, 50_000 * OneDec,
              TradingFees(-200_000_000_000_000, -200_000_000_000_000)).amount == -100
  {
  }

  /**
   * `Market.FeeMargin` as documented: a rebate is treated as a zero fee, so the
   * rate charged is the larger of the two fees, clamped at zero.
   */
  function FeeMargin(m: Market, quantity: int, price: Dec, fees: TradingFees): (c: Coin)
    requires m.marketType == FuturesMarket
    ensures c.denom == m.quote
  {
    Coin(m.quote, FeeAmount(quantity, price, MaxDec(MaxFee(fees), 0)))
  }

  /** The documented fee margin of an order with non-negative quantity and price is never negative. */
  lemma FeeMarginNonNegative(m: Market, quantity: int, price: Dec, fees: TradingFees)
    requires m.marketType == FuturesMarket
    requires quantity >= 0 && price >= 0
    ensures FeeMargin(m, quantity, price, fees).amount >= 0
  {
    var rate := MaxDec(MaxFee(fees), 0);
    var a := Mul(DecFromInt(quantity), rate);
    MulMonotone(0, DecFromInt(quantity), 0, rate);
    if a < 0 {
      MulMonotone(1, -a, Precision, Precision);
    }
    var b := Mul(a, price);
    MulMonotone(0, a, 0, price);
    if b < 0 {
      MulMonotone(1, -b, Precision, Precision);
    }
  }

  /** Clamping changes nothing unless both fees are rebates. */
  lemma FeeMarginAgreesWithoutRebates(m: Market, quantity: int, price: Dec, fees: TradingFees)
    requires m.marketType == FuturesMarket
    requires fees.takerFee >= 0 || fees.makerFee >= 0
    ensures FeeMargin(m, quantity, price, fees) == FeeMarginAsWritten(m, quantity, price, fees)
  {
  }

  /**
   * Quantity 10 at price 50000 with taker fee 0.0005 and maker fee -0.0002
   * reserves 250 quote units.
   */
  lemma FeeMarginScenario(m: Market)
    requires m.marketType == FuturesMarket
    ensures FeeMargin(m, 10, 50_000 * OneDec,
              TradingFees(-200_000_000_000_000, 500_000_000_000_000)) == Coin(m.quote, 250)
  {
  }

  /** `Market.MaxSizeGivenStepSize`: the largest size in risk step k. */
  function MaxSizeGivenStepSize(m: Market, k: int): int
  {
    (k + 1) * m.riskStepSize - m.lotSize
  }

  /** `Market.MinSizeGivenStepSize`: the smallest size in risk step k. */
  function MinSizeGivenStepSize(m: Market, k: int): int
  {
    k * m.riskStepSize + m.lotSize
  }

  /** The next step starts two lots after the end of this one. */
  lemma StepBoundsAdjacent(m: Market, k: int)
    ensures MaxSizeGivenStepSize(m, k) + 2 * m.lotSize == MinSizeGivenStepSize(m, k + 1)
  {
  }

  /** A step's bounds are in order exactly when a step holds at least two lots. */
  lemma StepBoundsOrdered(m: Market, k: int)
    ensures MinSizeGivenStepSize(m, k) <= MaxSizeGivenStepSize(m, k)
            <==> m.riskStepSize >= 2 * m.lotSize
  {
  }

  /** Every size between a step's bounds is in that risk step. */
  lemma StepBoundsBracketRiskStep(m: Market, k: int, size: int)
    requires m.riskStepSize > 0 && m.lotSize > 0 && k >= 0
    requires MinSizeGivenStepSize(m, k) <= Abs(size) <= MaxSizeGivenStepSize(m, k)
    ensures RiskStep(m, size) == k
  {
    RiskStepIs(m, size, k);
  }
}
