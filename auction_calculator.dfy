// The simulation of the iOS app (AuctionCalculator.swift): the recommended
// bid, the winning probability, the detailed costs, the sale-price rate with
// its 80% default, and the simulation result that combines them.
//
// Swift's free functions `min(x, y)` and `max(x, y)` are modelled as written
// in the Swift standard library: `min` is `y < x ? y : x` and `max` is
// `y >= x ? y : x`, so a NaN second argument of `max` yields the first one:
// `max(10, NaN)` is 10.

module AuctionCalculator {
  import opened Wrappers
  import opened JsNumber
  import PropertyModel

  // ---------------------------------------------------------------------
  // Recommended bid
  // ---------------------------------------------------------------------

  /** calculateRecommendedBidPrice: the expected auction price less 1.5% tax, the renovation,
      3% fees and the target profit, never below 30% of the market price. */
  function RecommendedBidPrice(marketPrice: real, salePriceRate: real, targetProfitRate: real,
                               renovationCost: real): (r: real)
    ensures var e := marketPrice * (salePriceRate / 100.0);
            var candidate := e * (0.955 - targetProfitRate / 100.0) - renovationCost;
            && r >= marketPrice * 0.3 && r >= candidate
            && (r == marketPrice * 0.3 || r == candidate)
  {
    var expectedAuctionPrice := marketPrice * (salePriceRate / 100.0);
    var additionalCosts := renovationCost + expectedAuctionPrice * 0.015;
    var fees := expectedAuctionPrice * 0.03;
    var targetProfit := expectedAuctionPrice * (targetProfitRate / 100.0);
    var recommendedBidPrice := expectedAuctionPrice - additionalCosts - fees - targetProfit;
    var minBidPrice := marketPrice * 0.3;
    if minBidPrice >= recommendedBidPrice then minBidPrice else recommendedBidPrice
  }

  /** A higher target profit or a higher renovation cost never raises the recommended bid,
      for a non-negative expected price. */
  lemma RecommendedBidMonotone(marketPrice: real, salePriceRate: real, t1: real, t2: real,
                               renovation1: real, renovation2: real)
    requires marketPrice * salePriceRate >= 0.0 && t1 <= t2 && renovation1 <= renovation2
    ensures RecommendedBidPrice(marketPrice, salePriceRate, t2, renovation2)
         <= RecommendedBidPrice(marketPrice, salePriceRate, t1, renovation1)
  {
    var e := marketPrice * (salePriceRate / 100.0);
    assert e == marketPrice * salePriceRate / 100.0;
    assert e >= 0.0;
    var c1 := e * (0.955 - t1 / 100.0) - renovation1;
    var c2 := e * (0.955 - t2 / 100.0) - renovation2;
    assert c2 <= c1 by {
      assert e * (0.955 - t1 / 100.0) - e * (0.955 - t2 / 100.0) == e * ((t2 - t1) / 100.0);
      assert e * ((t2 - t1) / 100.0) >= 0.0;
    }
  }

  // ---------------------------------------------------------------------
  // Winning probability
  // ---------------------------------------------------------------------

  /** Swift's min(x, y) with a finite second argument. */
  function SwiftMin(x: Num, y: real): (r: Num)
    ensures r != PosInf && (r.Fin? ==> r.v <= y)
    ensures x.Fin? ==> r == Fin(if x.v <= y then x.v else y)
    ensures x == NaN ==> r == NaN
  {
    if x.Gt(y) then Fin(y) else x
  }

  /** Swift's max(x, y) with a finite first argument. */
  function SwiftMax(x: real, y: Num): (r: Num)
    ensures y != PosInf ==> r.Fin? && r.v >= x
    ensures y.Fin? ==> r == Fin(if y.v >= x then y.v else x)
    ensures y == NaN || y == NegInf ==> r == Fin(x)
  {
    if y.Ge(x) then y else Fin(x)
  }

  /** calculateWinningProbability: half the bid-to-recommendation ratio in percent, at most 90,
      minus 3 per competitor and plus 5 per failed round, kept within 10 and 95. */
  function WinningProbability(bidPrice: real, recommendedBidPrice: real, competitorCount: int,
                              failedCount: int): (p: real)
    ensures 10.0 <= p <= 95.0
    ensures recommendedBidPrice != 0.0 ==>
              p == ClampReal(10.0, 95.0, Base(bidPrice / recommendedBidPrice * 50.0)
                                         - competitorCount as real * 3.0 + failedCount as real * 5.0)
    ensures recommendedBidPrice == 0.0 && bidPrice > 0.0 ==>
              p == ClampReal(10.0, 95.0, 90.0 - competitorCount as real * 3.0 + failedCount as real * 5.0)
    ensures recommendedBidPrice == 0.0 && bidPrice <= 0.0 ==> p == 10.0
  {
    var bidRatio := Div(bidPrice, recommendedBidPrice);
    var baseProbability := SwiftMin(Mul(bidRatio, 50.0), 90.0);
    var competitorAdjustment := competitorCount as real * -3.0;
    var failedAdjustment := failedCount as real * 5.0;
    var adjusted := Add(Add(baseProbability, competitorAdjustment), failedAdjustment);
    SwiftMax(10.0, SwiftMin(adjusted, 95.0)).v
  }

  /** The capped base of the probability for a finite ratio. */
  function Base(scaledRatio: real): (b: real)
    ensures b <= 90.0 && (scaledRatio <= 90.0 ==> b == scaledRatio)
  {
    if scaledRatio <= 90.0 then scaledRatio else 90.0
  }

  /** More competitors or fewer failed rounds never raise the probability, and neither does a
      lower bid against a positive recommendation. */
  lemma WinningProbabilityMonotone(bid1: real, bid2: real, recommendedBidPrice: real,
                                   competitors1: int, competitors2: int, failed1: int, failed2: int)
    requires recommendedBidPrice > 0.0 && bid1 <= bid2
    requires competitors1 >= competitors2 && failed1 <= failed2
    ensures WinningProbability(bid1, recommendedBidPrice, competitors1, failed1)
         <= WinningProbability(bid2, recommendedBidPrice, competitors2, failed2)
  {
    var s1 := bid1 / recommendedBidPrice * 50.0;
    var s2 := bid2 / recommendedBidPrice * 50.0;
    ScaledRatioMonotone(bid1, bid2, recommendedBidPrice);
    assert Base(s1) <= Base(s2);
    var x1 := Base(s1) - competitors1 as real * 3.0 + failed1 as real * 5.0;
    var x2 := Base(s2) - competitors2 as real * 3.0 + failed2 as real * 5.0;
    ClampRealMonotone(10.0, 95.0, x1, x2);
  }

  lemma ScaledRatioMonotone(a: real, b: real, d: real)
    requires d > 0.0 && a <= b
    ensures a / d * 50.0 <= b / d * 50.0
  {
    assert b / d - a / d == (b - a) / d;
  }

  /** A recommendation of 0 with no bid makes the ratio NaN, and Swift's max turns it into
      the 10% floor whatever the counts. */
  lemma NaNRatioGivesFloor(competitorCount: int, failedCount: int)
    ensures Div(0.0, 0.0) == NaN
    ensures WinningProbability(0.0, 0.0, competitorCount, failedCount) == 10.0
  {
  }

  // ---------------------------------------------------------------------
  // Detailed costs
  // ---------------------------------------------------------------------

  datatype DetailedCosts = DetailedCosts(
    totalCost: real,
    depositAmount: real,
    remainingPayment: real,
    acquisitionTax: real,
    localEducationTax: real,
    ruralSpecialTax: real,
    registrationFees: real,
    professionalFees: real,
    otherCosts: real)

  /** calculateDetailedCosts: 10% deposit and 90% balance make up the bid; the cost is the 4%
      acquisition tax, the two 10% surtaxes on it, 1% registration, 0.5% professional fees
      and the renovation, which comes to 6.3% of the bid plus the renovation. */
  function DetailedCostsOf(bidPrice: real, renovationCost: real): (c: DetailedCosts)
    ensures c.depositAmount + c.remainingPayment == bidPrice
    ensures c.localEducationTax == c.ruralSpecialTax == c.acquisitionTax / 10.0
    ensures c.totalCost == c.acquisitionTax + c.localEducationTax + c.ruralSpecialTax
                           + c.registrationFees + c.professionalFees + c.otherCosts
    ensures c.totalCost == bidPrice * 0.063 + renovationCost
  {
    var depositAmount := bidPrice * 0.1;
    var remainingPayment := bidPrice * 0.9;
    var acquisitionTax := bidPrice * 0.04;
    var localEducationTax := acquisitionTax * 0.1;
    var ruralSpecialTax := acquisitionTax * 0.1;
    var registrationFees := bidPrice * 0.01;
    var professionalFees := bidPrice * 0.005;
    var otherCosts := renovationCost;
    var totalCost := acquisitionTax + localEducationTax + ruralSpecialTax
                     + registrationFees + professionalFees + otherCosts;
    DetailedCosts(totalCost, depositAmount, remainingPayment, acquisitionTax, localEducationTax,
                  ruralSpecialTax, registrationFees, professionalFees, otherCosts)
  }

  /** A higher bid never lowers the total cost. */
  lemma DetailedCostsMonotone(bid1: real, bid2: real, renovationCost: real)
    requires bid1 <= bid2
    ensures DetailedCostsOf(bid1, renovationCost).totalCost <= DetailedCostsOf(bid2, renovationCost).totalCost
  {
    var c1 := DetailedCostsOf(bid1, renovationCost);
    var c2 := DetailedCostsOf(bid2, renovationCost);
    assert c2.totalCost - c1.totalCost == (bid2 - bid1) * 0.063;
  }

  // ---------------------------------------------------------------------
  // Sale-price rate
  // ---------------------------------------------------------------------

  /** getSalePriceRate: 80 without a region; otherwise the rate the regional loader gives,
      replaced by 80 when it is not positive. The loader is a parameter. */
  function SalePriceRate(region: Option<string>, district: Option<string>,
                         loader: (string, Option<string>) -> real): (r: real)
    ensures r > 0.0
    ensures region.None? ==> r == 80.0
    ensures region.Some? && loader(region.value, district) > 0.0 ==> r == loader(region.value, district)
    ensures region.Some? && loader(region.value, district) <= 0.0 ==> r == 80.0
  {
    match region
    case None => 80.0
    case Some(name) =>
      var rate := loader(name, district);
      if rate > 0.0 then rate else 80.0
  }

  // ---------------------------------------------------------------------
  // Simulation
  // ---------------------------------------------------------------------

  datatype SimulationResult = SimulationResult(
    recommendedBidPrice: real,
    winningProbability: real,
    expectedProfit: real,
    totalCost: real,
    profitRate: Num,
    depositAmount: real,
    remainingPayment: real,
    acquisitionTax: real,
    localEducationTax: real,
    ruralSpecialTax: real,
    registrationFees: real,
    professionalFees: real,
    otherCosts: real,
    marketRatio: Num,
    appraisalRatio: Num)

  /** r is a / b as a percentage whenever the divisor is not zero. */
  predicate IsPercentage(r: Num, a: real, b: real)
  {
    b != 0.0 ==> r == Fin(a / b * 100.0)
  }

  /** (a / b) * 100 in JavaScript numbers: finite whenever the divisor is not zero. */
  function Percentage(a: real, b: real): (r: Num)
    ensures IsPercentage(r, a, b)
  {
    Mul(Div(a, b), 100.0)
  }

  /** runSimulation */
  function RunSimulation(property: PropertyModel.AuctionProperty,
                         loader: (string, Option<string>) -> real): (s: SimulationResult)
    ensures var rate := SalePriceRate(property.region, property.district, loader);
            s.recommendedBidPrice == RecommendedBidPrice(property.marketPrice, rate,
                                                         property.targetProfitRate, property.renovationCost)
    ensures s.recommendedBidPrice >= property.marketPrice * 0.3
    ensures 10.0 <= s.winningProbability <= 95.0
    ensures s.expectedProfit + property.bidPrice + s.totalCost == property.marketPrice
    ensures s.totalCost == property.bidPrice * 0.063 + property.renovationCost
    ensures s.depositAmount + s.remainingPayment == property.bidPrice
    ensures IsPercentage(s.profitRate, s.expectedProfit, property.bidPrice)
    ensures IsPercentage(s.marketRatio, property.bidPrice, property.marketPrice)
    ensures property.appraisalPrice > 0.0 ==>
              IsPercentage(s.appraisalRatio, property.bidPrice, property.appraisalPrice)
    ensures property.appraisalPrice <= 0.0 ==> s.appraisalRatio == Fin(0.0)
  {
    var salePriceRate := SalePriceRate(property.region, property.district, loader);
    var recommendedBidPrice := RecommendedBidPrice(property.marketPrice, salePriceRate,
                                                   property.targetProfitRate, property.renovationCost);
    var winningProbability := WinningProbability(property.bidPrice, recommendedBidPrice,
                                                 property.competitorCount, property.failedCount);
    var costs := DetailedCostsOf(property.bidPrice, property.renovationCost);
    var expectedProfit := property.marketPrice - property.bidPrice - costs.totalCost;
    var profitRate := Percentage(expectedProfit, property.bidPrice);
    var marketRatio := Percentage(property.bidPrice, property.marketPrice);
    var appraisalRatio := if property.appraisalPrice > 0.0
                          then Percentage(property.bidPrice, property.appraisalPrice)
                          else Fin(0.0);
    SimulationResult(recommendedBidPrice, winningProbability, expectedProfit, costs.totalCost, profitRate,
                     costs.depositAmount, costs.remainingPayment, costs.acquisitionTax,
                     costs.localEducationTax, costs.ruralSpecialTax, costs.registrationFees,
                     costs.professionalFees, costs.otherCosts, marketRatio, appraisalRatio)
  }

  /** Bidding the whole market price can never show a profit when the costs are not negative. */
  lemma NoProfitAtMarketPrice(property: PropertyModel.AuctionProperty,
                              loader: (string, Option<string>) -> real)
    requires property.bidPrice == property.marketPrice && property.bidPrice > 0.0
    requires property.renovationCost >= 0.0
    ensures RunSimulation(property, loader).expectedProfit <= 0.0
    ensures RunSimulation(property, loader).profitRate.Le(0.0)
  {
    var s := RunSimulation(property, loader);
    assert s.expectedProfit / property.bidPrice * 100.0 <= 0.0 by {
      assert s.expectedProfit / property.bidPrice <= 0.0;
    }
  }
}
