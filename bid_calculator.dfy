// The pure calculators of the web bid calculator (script.js): the recommended
// bid from the regional sale-price rate, the simple and the advanced winning
// probability, the clamped adjustment factors, the market and final bid
// adjustments, the itemised purchase costs and the overall bid score.
// Doubles are exact reals here; a ratio that may divide by zero is a Num.

module BidCalculator {
  import opened Wrappers
  import opened JsNumber

  // ---------------------------------------------------------------------
  // calculateRecommendedBidPrice

  /** The optional extra costs a caller passes; a missing one counts as 0. */
  datatype ExtraCosts = ExtraCosts(eviction: real, renovation: real, legal: real, inspection: real, other: real)

  /** calculateAdditionalCosts: the extras plus a 1.5% acquisition tax on the expected price. */
  function AdditionalCosts(auctionPrice: real, extras: ExtraCosts): real
  {
    extras.eviction + extras.renovation + extras.legal + extras.inspection
    + auctionPrice * 0.015 + extras.other
  }

  /** The sum of the four rates of getAuctionFees; an unknown type takes the general rates. */
  function FeeRate(auctionType: string): (r: real)
    ensures 0.0 < r < 1.0
  {
    if auctionType == "realEstate" then 0.02 + 0.001 + 0.04 + 0.005
    else if auctionType == "vehicle" then 0.03 + 0.002 + 0.03 + 0.003
    else if auctionType == "art" then 0.15 + 0.001 + 0.10 + 0.005
    else 0.05 + 0.001 + 0.10 + 0.003
  }

  datatype BidCalculation = BidCalculation(
    recommendedBidPrice: int,
    expectedAuctionPrice: int,
    totalAdditionalCosts: int,
    totalFees: int,
    targetProfit: int,
    profitMargin: Num)

  /** The bid before rounding: expected price less costs, fees and target profit, floored at 30%. */
  function FinalBidPrice(marketPrice: real, salePriceRate: real, targetProfitRate: real,
                         auctionType: string, extras: ExtraCosts): (r: real)
    ensures var e := marketPrice * (salePriceRate / 100.0);
            var candidate := e - AdditionalCosts(e, extras) - e * FeeRate(auctionType) - e * (targetProfitRate / 100.0);
            && r >= marketPrice * 0.3 && r >= candidate
            && (r == marketPrice * 0.3 || r == candidate)
  {
    var expected := marketPrice * (salePriceRate / 100.0);
    var recommended := expected - AdditionalCosts(expected, extras) - expected * FeeRate(auctionType)
                       - expected * (targetProfitRate / 100.0);
    var minBid := marketPrice * 0.3;
    if recommended > minBid then recommended else minBid
  }

  /** The target profit: that share of the expected auction price. */
  function TargetProfit(marketPrice: real, salePriceRate: real, targetProfitRate: real): real
  {
    marketPrice * (salePriceRate / 100.0) * (targetProfitRate / 100.0)
  }

  /** `(targetProfit / finalBidPrice) * 100` before toFixed: the target profit as a percentage
      of the bid; NaN or infinite when the bid is 0. */
  function ProfitMargin(targetProfit: real, finalBid: real): (m: Num)
    ensures finalBid != 0.0 ==> m == Fin(targetProfit / finalBid * 100.0)
    ensures finalBid == 0.0 ==> !m.Fin? && (m.IsNaN() <==> targetProfit == 0.0)
    ensures finalBid > 0.0 ==> (m.v > 0.0 <==> targetProfit > 0.0) && (m.v == 0.0 <==> targetProfit == 0.0)
  {
    QuotientSign(targetProfit, finalBid);
    Mul(Div(targetProfit, finalBid), 100.0)
  }

  /** calculateRecommendedBidPrice: the rounded bid and its parts, and the profit margin of
      the unrounded bid. */
  function CalculateRecommendedBidPrice(marketPrice: real, salePriceRate: real, targetProfitRate: real,
                                        auctionType: string, extras: ExtraCosts): (r: BidCalculation)
    ensures var f := FinalBidPrice(marketPrice, salePriceRate, targetProfitRate, auctionType, extras);
            f - 0.5 < r.recommendedBidPrice as real <= f + 0.5
    ensures r.profitMargin == ProfitMargin(TargetProfit(marketPrice, salePriceRate, targetProfitRate),
                                           FinalBidPrice(marketPrice, salePriceRate, targetProfitRate, auctionType, extras))
  {
    var expected := marketPrice * (salePriceRate / 100.0);
    var targetProfit := TargetProfit(marketPrice, salePriceRate, targetProfitRate);
    var finalBid := FinalBidPrice(marketPrice, salePriceRate, targetProfitRate, auctionType, extras);
    BidCalculation(
      Round(finalBid),
      Round(expected),
      Round(AdditionalCosts(expected, extras)),
      Round(expected * FeeRate(auctionType)),
      Round(targetProfit),
      ProfitMargin(targetProfit, finalBid))
  }

  /** For a positive market price the bid is at least 30% of it, so the margin is finite; with
      a positive sale-price rate it has the sign of the target profit rate. */
  lemma ProfitMarginFinite(marketPrice: real, salePriceRate: real, targetProfitRate: real,
                           auctionType: string, extras: ExtraCosts)
    requires marketPrice > 0.0 && salePriceRate > 0.0
    ensures var m := ProfitMargin(TargetProfit(marketPrice, salePriceRate, targetProfitRate),
                                  FinalBidPrice(marketPrice, salePriceRate, targetProfitRate, auctionType, extras));
            && m.Fin?
            && (m.v > 0.0 <==> targetProfitRate > 0.0)
            && (m.v == 0.0 <==> targetProfitRate == 0.0)
  {
    var e := marketPrice * (salePriceRate / 100.0);
    var f := FinalBidPrice(marketPrice, salePriceRate, targetProfitRate, auctionType, extras);
    assert f > 0.0;
    ProductSign(marketPrice, salePriceRate / 100.0);
    ProductSign(e, targetProfitRate / 100.0);
    var t := TargetProfit(marketPrice, salePriceRate, targetProfitRate);
    assert t == e * (targetProfitRate / 100.0);
    assert t == 0.0 <==> targetProfitRate == 0.0;
    assert ProfitMargin(t, f).v == 0.0 <==> t == 0.0;
  }

  /** A market price of 0 with no extra costs makes the bid 0 and the margin 0/0, NaN. */
  lemma ZeroMarketMarginNaN(salePriceRate: real, targetProfitRate: real, auctionType: string)
    ensures var r := CalculateRecommendedBidPrice(0.0, salePriceRate, targetProfitRate, auctionType,
                                                  ExtraCosts(0.0, 0.0, 0.0, 0.0, 0.0));
            r.recommendedBidPrice == 0 && r.profitMargin == NaN
  {
    assert FinalBidPrice(0.0, salePriceRate, targetProfitRate, auctionType, ExtraCosts(0.0, 0.0, 0.0, 0.0, 0.0)) == 0.0;
    assert TargetProfit(0.0, salePriceRate, targetProfitRate) == 0.0;
  }

  /** Dividing by a positive bid and scaling by 100 keeps the sign. */
  lemma QuotientSign(t: real, f: real)
    ensures f > 0.0 ==> (t / f * 100.0 > 0.0 <==> t > 0.0) && (t / f * 100.0 == 0.0 <==> t == 0.0)
  {
    if f > 0.0 {
      var q := t / f;
      assert q * f == t;
      ProductSign(f, q);
      ProductSign(100.0, q);
    }
  }

  /** Multiplying by a positive factor keeps the sign. */
  lemma ProductSign(a: real, b: real)
    requires a > 0.0
    ensures a * b > 0.0 <==> b > 0.0
    ensures a * b == 0.0 <==> b == 0.0
  {
    if b < 0.0 {
      assert a * b == -(a * -b);
    }
  }

  /** A higher target profit never raises the bid, for a non-negative expected price. */
  lemma RecommendedBidMonotone(marketPrice: real, salePriceRate: real, t1: real, t2: real,
                               auctionType: string, extras: ExtraCosts)
    requires marketPrice >= 0.0 && salePriceRate >= 0.0 && t1 <= t2
    ensures FinalBidPrice(marketPrice, salePriceRate, t2, auctionType, extras)
         <= FinalBidPrice(marketPrice, salePriceRate, t1, auctionType, extras)
  {
    var e := marketPrice * (salePriceRate / 100.0);
    assert e >= 0.0;
    assert e * (t1 / 100.0) <= e * (t2 / 100.0) by {
      assert e * (t2 / 100.0) - e * (t1 / 100.0) == e * ((t2 - t1) / 100.0);
    }
  }

  // ---------------------------------------------------------------------
  // calculateWinProbability and its simple factors

  /** calculateSimpleBaseProbability on bidPrice / propertyValue; NaN falls through to 0.98. */
  function SimpleBaseProbability(priceRatio: Num): real
  {
    if priceRatio.Lt(0.7) then 0.1
    else if priceRatio.Lt(0.8) then 0.3
    else if priceRatio.Lt(0.9) then 0.6
    else if priceRatio.Lt(1.0) then 0.8
    else if priceRatio.Lt(1.1) then 0.9
    else if priceRatio.Lt(1.2) then 0.95
    else 0.98
  }

  /** A higher finite price ratio never lowers the base probability. */
  lemma SimpleBaseMonotone(a: real, b: real)
    requires a <= b
    ensures SimpleBaseProbability(Fin(a)) <= SimpleBaseProbability(Fin(b))
    ensures 0.1 <= SimpleBaseProbability(Fin(a)) <= 0.98
  {
  }

  function SimpleCompetitorFactor(competitorCount: int): real
  {
    if competitorCount <= 1 then 0.95
    else if competitorCount == 2 then 0.7
    else if competitorCount == 3 then 0.5
    else if competitorCount == 4 then 0.35
    else if competitorCount == 5 then 0.25
    else if competitorCount <= 8 then 0.15
    else 0.1
  }

  /** More competitors never raise the factor. */
  lemma SimpleCompetitorMonotone(m: int, n: int)
    requires m <= n
    ensures SimpleCompetitorFactor(n) <= SimpleCompetitorFactor(m)
    ensures 0.1 <= SimpleCompetitorFactor(n) <= 0.95
  {
  }

  function SimpleFailedFactor(failedCount: int): real
  {
    if failedCount == 0 then 1.0
    else if failedCount == 1 then 0.9
    else if failedCount == 2 then 0.8
    else if failedCount == 3 then 0.7
    else 0.6
  }

  function MinimumBidFactor(ratio: Num): real
  {
    if ratio.Lt(1.05) then 0.5
    else if ratio.Lt(1.1) then 0.7
    else if ratio.Lt(1.2) then 0.9
    else if ratio.Lt(1.5) then 1.0
    else 1.1
  }

  function AppraisalFactor(ratio: Num): real
  {
    if ratio.Lt(0.8) then 0.6
    else if ratio.Lt(0.9) then 0.8
    else if ratio.Lt(1.1) then 1.0
    else if ratio.Lt(1.3) then 1.1
    else 1.2
  }

  /** calculateWinProbability: the product of the factors, clamped to [0.01, 0.99]. */
  function WinProbability(bidPrice: real, propertyValue: real, competitorCount: int, marketWeight: real,
                          urgencyWeight: real, failedCount: int, appraisalPrice: real, minimumBid: real): (r: real)
    ensures 0.01 <= r <= 0.99
  {
    ClampedProduct(SimpleBaseProbability(Div(bidPrice, propertyValue)), SimpleCompetitorFactor(competitorCount),
                   marketWeight, urgencyWeight, SimpleFailedFactor(failedCount),
                   MinimumBidFactor(Div(bidPrice, minimumBid)), AppraisalFactor(Div(bidPrice, appraisalPrice)))
  }

  /** The product of the seven factors, clamped to [0.01, 0.99]. */
  function ClampedProduct(base: real, competitor: real, market: real, urgency: real, failed: real,
                          minimumBid: real, appraisal: real): (r: real)
    ensures 0.01 <= r <= 0.99
  {
    ClampReal(0.01, 0.99, base * competitor * market * urgency * failed * minimumBid * appraisal)
  }

  lemma MinimumBidFactorMonotone(a: real, b: real)
    requires a <= b
    ensures 0.0 < MinimumBidFactor(Fin(a)) <= MinimumBidFactor(Fin(b))
  {
  }

  lemma AppraisalFactorMonotone(a: real, b: real)
    requires a <= b
    ensures 0.0 < AppraisalFactor(Fin(a)) <= AppraisalFactor(Fin(b))
  {
  }

  /** With every other input fixed and non-negative weights, a larger bid never lowers the
      probability: each of the three ratios it enters only grows. */
  lemma WinProbabilityMonotone(b1: real, b2: real, propertyValue: real, competitorCount: int,
                               marketWeight: real, urgencyWeight: real, failedCount: int,
                               appraisalPrice: real, minimumBid: real)
    requires 0.0 <= b1 <= b2 && propertyValue > 0.0 && appraisalPrice > 0.0 && minimumBid > 0.0
    requires marketWeight >= 0.0 && urgencyWeight >= 0.0
    ensures WinProbability(b1, propertyValue, competitorCount, marketWeight, urgencyWeight, failedCount, appraisalPrice, minimumBid)
         <= WinProbability(b2, propertyValue, competitorCount, marketWeight, urgencyWeight, failedCount, appraisalPrice, minimumBid)
  {
    DivMonotone(b1, b2, propertyValue);
    DivMonotone(b1, b2, minimumBid);
    DivMonotone(b1, b2, appraisalPrice);
    SimpleBaseMonotone(b1 / propertyValue, b2 / propertyValue);
    SimpleBaseMonotone(b2 / propertyValue, b2 / propertyValue);
    MinimumBidFactorMonotone(b1 / minimumBid, b2 / minimumBid);
    AppraisalFactorMonotone(b1 / appraisalPrice, b2 / appraisalPrice);
    var x1, x2 := SimpleBaseProbability(Fin(b1 / propertyValue)), SimpleBaseProbability(Fin(b2 / propertyValue));
    var y1, y2 := MinimumBidFactor(Fin(b1 / minimumBid)), MinimumBidFactor(Fin(b2 / minimumBid));
    var z1, z2 := AppraisalFactor(Fin(b1 / appraisalPrice)), AppraisalFactor(Fin(b2 / appraisalPrice));
    var c, f := SimpleCompetitorFactor(competitorCount), SimpleFailedFactor(failedCount);
    assert Div(b1, propertyValue) == Fin(b1 / propertyValue) && Div(b2, propertyValue) == Fin(b2 / propertyValue);
    assert Div(b1, minimumBid) == Fin(b1 / minimumBid) && Div(b2, minimumBid) == Fin(b2 / minimumBid);
    assert Div(b1, appraisalPrice) == Fin(b1 / appraisalPrice) && Div(b2, appraisalPrice) == Fin(b2 / appraisalPrice);
    ProductMonotone(x1, x2, c, marketWeight, urgencyWeight, f, y1, y2, z1, z2);
  }

  /** Seven non-negative factors, three of which grow: the clamped product grows. */
  lemma ProductMonotone(x1: real, x2: real, c: real, m: real, u: real, f: real, y1: real, y2: real, z1: real, z2: real)
    requires 0.0 <= x1 <= x2 && 0.0 <= c && 0.0 <= m && 0.0 <= u && 0.0 <= f && 0.0 <= y1 <= y2 && 0.0 <= z1 <= z2
    ensures ClampedProduct(x1, c, m, u, f, y1, z1) <= ClampedProduct(x2, c, m, u, f, y2, z2)
  {
    MulLe(x1, x2, c, c);
    MulLe(x1 * c, x2 * c, m, m);
    MulLe(x1 * c * m, x2 * c * m, u, u);
    MulLe(x1 * c * m * u, x2 * c * m * u, f, f);
    MulLe(x1 * c * m * u * f, x2 * c * m * u * f, y1, y2);
    MulLe(x1 * c * m * u * f * y1, x2 * c * m * u * f * y2, z1, z2);
    ClampRealMonotone(0.01, 0.99, x1 * c * m * u * f * y1 * z1, x2 * c * m * u * f * y2 * z2);
  }

  lemma DivMonotone(a: real, b: real, d: real)
    requires a <= b && d > 0.0
    ensures a / d <= b / d
  {
    assert b / d - a / d == (b - a) / d;
  }

  lemma MulLe(p: real, q: real, j: real, k: real)
    requires 0.0 <= p <= q && 0.0 <= j <= k
    ensures 0.0 <= p * j <= q * k
  {
    assert p * j <= q * j;
    assert q * j <= q * k;
  }

  // ---------------------------------------------------------------------
  // calculateAdvancedWinProbability

  /** The price-ratio bands of the advanced model. */
  function AdvancedBase(priceRatio: real): real
  {
    if priceRatio < 0.65 then 0.15
    else if priceRatio < 0.75 then 0.35
    else if priceRatio < 0.83 then 0.50
    else if priceRatio < 0.90 then 0.65
    else if priceRatio < 0.97 then 0.80
    else if priceRatio < 1.05 then 0.90
    else if priceRatio < 1.15 then 0.95
    else 0.98
  }

  function CompetitionPenalty(competitorCount: Num): real
  {
    if competitorCount.Le(2.0) then 1.0
    else if competitorCount.Is(3.0) then 0.9
    else if competitorCount.Is(4.0) then 0.8
    else if competitorCount.Is(5.0) then 0.75
    else if competitorCount.Is(6.0) then 0.7
    else if competitorCount.Is(7.0) then 0.65
    else if competitorCount.Is(8.0) then 0.6
    else 0.55
  }

  function FailureBonus(failedCount: Num): real
  {
    if failedCount.Is(0.0) then 0.9
    else if failedCount.Is(1.0) then 1.1
    else if failedCount.Is(2.0) then 1.25
    else if failedCount.Is(3.0) then 1.15
    else 1.05
  }

  function SaleRateAdjustment(salePriceRate: Num): real
  {
    if salePriceRate.Lt(70.0) then 0.75
    else if salePriceRate.Lt(75.0) then 0.85
    else if salePriceRate.Lt(80.0) then 0.95
    else if salePriceRate.Lt(85.0) then 1.05
    else if salePriceRate.Lt(90.0) then 1.15
    else 1.25
  }

  /** A missing (null or undefined) or NaN count takes the given default. */
  function OrDefault(x: Option<Num>, default: real): Num
  {
    if x.None? || x.value.IsNaN() then Fin(default) else x.value
  }

  /** calculateAdvancedWinProbability. None stands for null or undefined; a missing sale-price
      rate is read from the page, which is the `currentSaleRate` parameter here. */
  function AdvancedWinProbability(priceRatio: Option<Num>, competitorCount: Option<Num>, failedCount: Option<Num>,
                                  salePriceRate: Option<Num>, currentSaleRate: real): (r: real)
    ensures 0.1 <= r <= 0.95
    ensures priceRatio.None? || priceRatio.value.IsNaN() ==> r == 0.5
  {
    if priceRatio.None? || priceRatio.value.IsNaN() then 0.5
    else
      var rate := if salePriceRate.None? then Fin(currentSaleRate) else salePriceRate.value;
      var ratio := match priceRatio.value case Fin(v) => v case PosInf => 2.0 case _ => 0.0;
      AdvancedProduct(AdvancedBase(ratio), CompetitionPenalty(OrDefault(competitorCount, 5.0)),
                      FailureBonus(OrDefault(failedCount, 0.0)), SaleRateAdjustment(rate))
  }

  /** The product of the four factors of the advanced model, clamped to [0.1, 0.95]. */
  function AdvancedProduct(base: real, competition: real, failure: real, saleRate: real): (r: real)
    ensures 0.1 <= r <= 0.95
  {
    ClampReal(0.1, 0.95, base * competition * failure * saleRate)
  }

  /** A higher price ratio never lowers the advanced probability. */
  lemma AdvancedMonotone(a: real, b: real, competitorCount: Option<Num>, failedCount: Option<Num>,
                         salePriceRate: Option<Num>, currentSaleRate: real)
    requires a <= b
    ensures AdvancedWinProbability(Some(Fin(a)), competitorCount, failedCount, salePriceRate, currentSaleRate)
         <= AdvancedWinProbability(Some(Fin(b)), competitorCount, failedCount, salePriceRate, currentSaleRate)
  {
    var rate := if salePriceRate.None? then Fin(currentSaleRate) else salePriceRate.value;
    var c, f, s := CompetitionPenalty(OrDefault(competitorCount, 5.0)), FailureBonus(OrDefault(failedCount, 0.0)),
                   SaleRateAdjustment(rate);
    assert 0.0 <= AdvancedBase(a) <= AdvancedBase(b);
    AdvancedProductMonotone(AdvancedBase(a), AdvancedBase(b), c, f, s);
  }

  lemma AdvancedProductMonotone(x1: real, x2: real, c: real, f: real, s: real)
    requires 0.0 <= x1 <= x2 && 0.0 <= c && 0.0 <= f && 0.0 <= s
    ensures AdvancedProduct(x1, c, f, s) <= AdvancedProduct(x2, c, f, s)
  {
    MulLe(x1, x2, c, c);
    MulLe(x1 * c, x2 * c, f, f);
    MulLe(x1 * c * f, x2 * c * f, s, s);
    ClampRealMonotone(0.1, 0.95, x1 * c * f * s, x2 * c * f * s);
  }

  // ---------------------------------------------------------------------
  // Clamped factors

  /** calculateMarketFactor. Math.pow with a fractional exponent is the `pow` parameter. */
  function MarketFactor(marketWeight: real, competitorCount: int, pow: (real, real) -> Num): (r: Num)
    ensures r.IsNaN() ==> competitorCount >= 5 || competitorCount <= 2
    ensures !r.IsNaN() ==> r.Fin? && 0.1 <= r.v <= 2.0
  {
    var base := if competitorCount >= 5 then pow(marketWeight, 1.5)
                else if competitorCount <= 2 then pow(marketWeight, 0.7)
                else Fin(marketWeight);
    Clamp(0.1, 2.0, base)
  }

  /** calculateUrgencyFactor, with the same treatment of Math.pow. */
  function UrgencyFactor(urgencyWeight: real, competitorCount: int, pow: (real, real) -> Num): (r: Num)
    ensures r.IsNaN() ==> competitorCount >= 5 || competitorCount <= 2
    ensures !r.IsNaN() ==> r.Fin? && 0.5 <= r.v <= 1.5
  {
    var base := if competitorCount >= 5 then pow(urgencyWeight, 1.3)
                else if competitorCount <= 2 then pow(urgencyWeight, 0.8)
                else Fin(urgencyWeight);
    Clamp(0.5, 1.5, base)
  }

  /** For three or four competitors the weight is used unchanged when already in range. */
  lemma FactorsKeepWeight(w: real, competitorCount: int, pow: (real, real) -> Num)
    requires 3 <= competitorCount <= 4
    ensures 0.1 <= w <= 2.0 ==> MarketFactor(w, competitorCount, pow) == Fin(w)
    ensures 0.5 <= w <= 1.5 ==> UrgencyFactor(w, competitorCount, pow) == Fin(w)
    ensures !MarketFactor(w, competitorCount, pow).IsNaN() && !UrgencyFactor(w, competitorCount, pow).IsNaN()
  {
  }

  function AppraisalBehavior(ratio: Num): real
  {
    if ratio.Lt(0.7) then 0.3
    else if ratio.Lt(0.85) then 0.6
    else if ratio.Lt(1.15) then 1.0
    else if ratio.Lt(1.4) then 1.3
    else 1.6
  }

  function MinimumBidBehavior(ratio: Num): real
  {
    if ratio.Lt(1.01) then 0.8
    else if ratio.Lt(1.05) then 0.9
    else if ratio.Lt(1.2) then 1.0
    else if ratio.Lt(1.5) then 1.1
    else 1.2
  }

  /** calculateBehaviorFactor: two band factors and 0.95 per failed round, clamped to [0.2, 2.0]. */
  function BehaviorFactor(bidPrice: real, appraisalPrice: real, minimumBid: real, failedCount: nat): (r: real)
    ensures 0.2 <= r <= 2.0
  {
    var f := 1.0 * AppraisalBehavior(Div(bidPrice, appraisalPrice)) * MinimumBidBehavior(Div(bidPrice, minimumBid))
             * Pow(0.95, failedCount);
    ClampReal(0.2, 2.0, f)
  }

  /** More failed rounds never raise the behaviour factor. */
  lemma BehaviorFailedMonotone(bidPrice: real, appraisalPrice: real, minimumBid: real, m: nat, n: nat)
    requires m <= n
    ensures BehaviorFactor(bidPrice, appraisalPrice, minimumBid, n) <= BehaviorFactor(bidPrice, appraisalPrice, minimumBid, m)
  {
    var k := 1.0 * AppraisalBehavior(Div(bidPrice, appraisalPrice)) * MinimumBidBehavior(Div(bidPrice, minimumBid));
    assert k > 0.0;
    PowDecreasing(0.95, m, n);
    assert k * Pow(0.95, n) <= k * Pow(0.95, m);
    ClampRealMonotone(0.2, 2.0, k * Pow(0.95, n), k * Pow(0.95, m));
  }

  function MarketRisk(marketCondition: string): real
  {
    if marketCondition == "hot" then 5.0 else if marketCondition == "cold" then -3.0 else 0.0
  }

  function MarketVolatility(marketCondition: string): real
  {
    if marketCondition == "hot" then 1.5 else if marketCondition == "cold" then 0.7 else 1.0
  }

  /** calculateRiskPremium: a market premium in [-3, 5], 2 points off per failed round, and
      10 or 5 points for a low or middling win probability. */
  function RiskPremium(marketCondition: string, failedCount: real, winProbability: real): (r: real)
    ensures -3.0 <= r + failedCount * 2.0 <= 15.0
    ensures winProbability >= 0.6 ==> r + failedCount * 2.0 <= 5.0
    ensures winProbability < 0.3 ==> r + failedCount * 2.0 >= 7.0
  {
    MarketRisk(marketCondition) + failedCount * -2.0
    + (if winProbability < 0.3 then 10.0 else if winProbability < 0.6 then 5.0 else 0.0)
  }

  /** calculateVolatilityAdjustment: up to 15 points of uncertainty, scaled by the market. */
  function VolatilityAdjustment(winProbability: real, marketCondition: string): (r: real)
    ensures 0.0 <= winProbability <= 1.0 ==> 0.0 <= r <= 22.5
    ensures winProbability == 1.0 ==> r == 0.0
    ensures marketCondition != "hot" && marketCondition != "cold" ==> r == (1.0 - winProbability) * 15.0
  {
    (1.0 - winProbability) * 15.0 * MarketVolatility(marketCondition)
  }

  /** calculateRiskAdjustedProfit: the expected return, adjusted, clamped to [-50, 200]. */
  function RiskAdjustedProfit(propertyValue: real, totalCost: real, winProbability: real,
                              marketCondition: string, failedCount: real): (r: Num)
    ensures totalCost != 0.0 ==> r.Fin? && -50.0 <= r.v <= 200.0
    ensures r.IsNaN() <==> totalCost == 0.0 && (propertyValue == 0.0 || winProbability == 0.0)
  {
    var basic := Mul(Div(propertyValue - totalCost, totalCost), 100.0);
    var expected := Mul(basic, winProbability);
    var adjusted := Add(expected, RiskPremium(marketCondition, failedCount, winProbability)
                                  - VolatilityAdjustment(winProbability, marketCondition));
    Clamp(-50.0, 200.0, adjusted)
  }

  // ---------------------------------------------------------------------
  // applyMarketAdjustments and applyFinalConstraints

  /** The factor of the failed-round adjustment: 0.95 per round, but never below 0.7. */
  function FailureFactor(failedCount: int): (r: real)
    ensures 0.7 <= r <= 1.0
    ensures failedCount <= 0 ==> r == 1.0
  {
    if failedCount > 0 then
      PowBounds(0.95, failedCount);
      var f := Pow(0.95, failedCount);
      if f > 0.7 then f else 0.7
    else 1.0
  }

  method ApplyMarketAdjustments(baseBid: real, marketPrice: real, failedCount: int) returns (adjustedBid: real)
    ensures var afterFailures := baseBid * FailureFactor(failedCount);
            adjustedBid == if Div(afterFailures, marketPrice).Gt(0.9) then afterFailures * 0.95 else afterFailures
  {
    adjustedBid := baseBid;
    if failedCount > 0 {
      var failureFactor := Pow(0.95, failedCount);
      var maxReduction := 0.7;
      var actualFactor := if failureFactor > maxReduction then failureFactor else maxReduction;
      adjustedBid := adjustedBid * actualFactor;
    }
    var marketRatio := Div(adjustedBid, marketPrice);
    if marketRatio.Gt(0.9) {
      adjustedBid := adjustedBid * 0.95;
    }
  }

  /** For a positive bid the adjustments only lower it, by at most the two factors 0.7 and 0.95;
      with no failed round and a bid at most 90% of a positive market price it is unchanged. */
  lemma MarketAdjustmentBounds(baseBid: real, marketPrice: real, failedCount: int)
    requires baseBid > 0.0
    ensures var afterFailures := baseBid * FailureFactor(failedCount);
            var r := if Div(afterFailures, marketPrice).Gt(0.9) then afterFailures * 0.95 else afterFailures;
            && baseBid * 0.7 * 0.95 <= r <= baseBid
            && (failedCount <= 0 && marketPrice > 0.0 && baseBid <= 0.9 * marketPrice ==> r == baseBid)
  {
    var f := FailureFactor(failedCount);
    ScaledBounds(baseBid, f);
    AdjustedBounds(baseBid, baseBid * f, marketPrice);
    if failedCount <= 0 && marketPrice > 0.0 && baseBid <= 0.9 * marketPrice {
      assert baseBid * f == baseBid;
      DivAtMost(baseBid, 0.9, marketPrice);
    }
  }

  lemma ScaledBounds(b: real, f: real)
    requires b > 0.0 && 0.7 <= f <= 1.0
    ensures b * 0.7 <= b * f <= b
  {
  }

  lemma AdjustedBounds(b: real, a: real, marketPrice: real)
    requires 0.0 < b * 0.7 <= a <= b
    ensures var r := if Div(a, marketPrice).Gt(0.9) then a * 0.95 else a;
            b * 0.7 * 0.95 <= r <= b
  {
  }

  lemma DivAtMost(a: real, c: real, d: real)
    requires d > 0.0 && a <= c * d
    ensures a / d <= c
  {
    assert a / d * d == a;
  }

  method ApplyFinalConstraints(bid: real, appraisalPrice: real, minimumBid: real) returns (finalBid: real)
    ensures finalBid <= appraisalPrice * 0.98 && finalBid <= minimumBid * 2.0
    ensures var floor := if bid > minimumBid * 1.05 then bid else minimumBid * 1.05;
            floor <= appraisalPrice * 0.98 && floor <= minimumBid * 2.0 ==> finalBid == floor
    ensures finalBid == bid || finalBid == minimumBid * 1.05 || finalBid == appraisalPrice * 0.98
            || finalBid == minimumBid * 2.0
  {
    finalBid := bid;
    finalBid := if finalBid > minimumBid * 1.05 then finalBid else minimumBid * 1.05;
    finalBid := if finalBid < appraisalPrice * 0.98 then finalBid else appraisalPrice * 0.98;
    finalBid := if finalBid < minimumBid * 2.0 then finalBid else minimumBid * 2.0;
  }

  // ---------------------------------------------------------------------
  // calculateDetailedAuctionCosts

  predicate IsHousing(propertyType: string)
  {
    propertyType == "아파트" || propertyType == "오피스텔" || propertyType == "빌라" || propertyType == "단독주택"
  }

  /** The acquisition-tax rate by property type, number of homes and area. */
  function AcquisitionTaxRate(propertyType: string, homeCount: int, area: real): (r: real)
    ensures IsHousing(propertyType) && homeCount == 1 ==>
              r == (if area <= 85.0 then 0.03 else if area <= 102.0 then 0.02 else 0.01)
    ensures IsHousing(propertyType) && homeCount == 2 ==> r == 0.08
    ensures IsHousing(propertyType) && homeCount != 1 && homeCount != 2 ==> r == 0.12
    ensures !IsHousing(propertyType) ==> r == (if propertyType == "토지" then 0.03 else 0.04)
  {
    if IsHousing(propertyType) then
      if homeCount == 1 then (if area <= 85.0 then 0.03 else if area <= 102.0 then 0.02 else 0.01)
      else if homeCount == 2 then 0.08
      else 0.12
    else if propertyType == "토지" then 0.03
    else 0.04
  }

  function LegalFee(bidPrice: real): real
  {
    if bidPrice <= 100000000.0 then 500000.0
    else if bidPrice <= 300000000.0 then 800000.0
    else if bidPrice <= 500000000.0 then 1250000.0
    else 1750000.0
  }

  datatype Costs = Costs(
    bidPrice: real,
    deposit: real,
    remainingPayment: real,
    acquisitionTax: real,
    localEducationTax: real,
    ruralSpecialTax: real,
    totalTaxes: real,
    ownershipTransferTax: real,
    registrationEducationTax: real,
    housingBond: real,
    stampTax: real,
    mortgageStampTax: real,
    totalRegistrationFees: real,
    legalFee: real,
    unpaidUtilities: real,
    totalAdditionalCosts: real,
    totalInvestment: real,
    costPercentage: Num)

  function DetailedAuctionCosts(bidPrice: real, propertyType: string, homeCount: int, area: real): Costs
  {
    var deposit := bidPrice * 0.1;
    var rate := AcquisitionTaxRate(propertyType, homeCount, area);
    var acquisitionTax := bidPrice * rate;
    var localEducationTax := acquisitionTax * 0.20;
    var ruralSpecialTax := acquisitionTax * 0.15;
    var ownershipTransferTax := bidPrice * 0.002;
    var registrationEducationTax := ownershipTransferTax * 0.20;
    var housingBond := acquisitionTax * 0.20;
    var stampTax := if bidPrice > 100000000.0 then 50000.0 else 0.0;
    var mortgageStampTax := if bidPrice > 1000000000.0 then 150000.0 else 0.0;
    var unpaidUtilities := bidPrice * 0.005;
    var totalTaxes := acquisitionTax + localEducationTax + ruralSpecialTax;
    var totalRegistration := ownershipTransferTax + 0.0 + registrationEducationTax + housingBond + stampTax + mortgageStampTax;
    var total := totalTaxes + totalRegistration + LegalFee(bidPrice) + 0.0 + (0.0 + unpaidUtilities);
    Costs(bidPrice, deposit, bidPrice - deposit, acquisitionTax, localEducationTax, ruralSpecialTax, totalTaxes,
          ownershipTransferTax, registrationEducationTax, housingBond, stampTax, mortgageStampTax, totalRegistration,
          LegalFee(bidPrice), unpaidUtilities, total, bidPrice + total, Mul(Div(total, bidPrice), 100.0))
  }

  /** Deposit and balance make up the bid; the total is the bid plus the additional costs, which
      are 1.55 times the acquisition tax, 0.74% of the bid, the stamp duties and the legal fee. */
  lemma CostsSpec(bidPrice: real, propertyType: string, homeCount: int, area: real)
    ensures var c := DetailedAuctionCosts(bidPrice, propertyType, homeCount, area);
            var rate := AcquisitionTaxRate(propertyType, homeCount, area);
            && c.deposit + c.remainingPayment == bidPrice
            && c.deposit == bidPrice * 0.1
            && c.totalInvestment == bidPrice + c.totalAdditionalCosts
            && c.totalAdditionalCosts == bidPrice * (rate * 1.55 + 0.0074) + c.stampTax + c.mortgageStampTax + c.legalFee
  {
  }

  /** For the same kind of property a higher bid never costs less in total. */
  lemma CostsMonotone(b1: real, b2: real, propertyType: string, homeCount: int, area: real)
    requires 0.0 <= b1 <= b2
    ensures DetailedAuctionCosts(b1, propertyType, homeCount, area).totalAdditionalCosts
         <= DetailedAuctionCosts(b2, propertyType, homeCount, area).totalAdditionalCosts
  {
    var c1 := DetailedAuctionCosts(b1, propertyType, homeCount, area);
    var c2 := DetailedAuctionCosts(b2, propertyType, homeCount, area);
    CostsSpec(b1, propertyType, homeCount, area);
    CostsSpec(b2, propertyType, homeCount, area);
    var rate := AcquisitionTaxRate(propertyType, homeCount, area);
    assert rate >= 0.0;
    ScaleMonotone(b1, b2, rate * 1.55 + 0.0074);
    assert c1.stampTax <= c2.stampTax && c1.mortgageStampTax <= c2.mortgageStampTax;
    assert c1.legalFee == LegalFee(b1) <= LegalFee(b2) == c2.legalFee;
  }

  lemma ScaleMonotone(x: real, y: real, k: real)
    requires x <= y && k >= 0.0
    ensures x * k <= y * k
  {
  }

  // ---------------------------------------------------------------------
  // calculateOverallBidScore

  /** The score from the four parsed figures of an analysis; a text that does not parse is NaN. */
  function OverallBidScore(appraisalRatio: Num, saleRate: Num, competitorCount: Num, failedCount: Num): (r: int)
    ensures 85 <= r <= 100
  {
    var price := if appraisalRatio.Ge(80.0) && appraisalRatio.Le(95.0) then 30
                 else if appraisalRatio.Ge(75.0) && appraisalRatio.Le(100.0) then 20 else 10;
    var rate := if saleRate.Ge(85.0) then 25 else if saleRate.Ge(80.0) then 20
                else if saleRate.Ge(75.0) then 15 else 10;
    var competition := if competitorCount.Le(3.0) then 25 else if competitorCount.Le(6.0) then 20
                       else if competitorCount.Le(8.0) then 15 else 10;
    var failures := if failedCount.Is(2.0) then 20 else if failedCount.Is(1.0) then 15
                    else if failedCount.Is(3.0) then 15 else if failedCount.Is(0.0) then 10 else 5;
    var score := 50 + price + rate + competition + failures;
    if score < 100 then score else 100
  }

  /** Unreadable figures earn each band's minimum; the ideal figures reach the cap. */
  lemma OverallBidScoreExtremes()
    ensures OverallBidScore(NaN, NaN, NaN, NaN) == 85
    ensures OverallBidScore(Fin(90.0), Fin(85.0), Fin(3.0), Fin(2.0)) == 100
    ensures OverallBidScore(Fin(70.0), Fin(70.0), Fin(9.0), Fin(0.0)) == 90
  {
  }
}
