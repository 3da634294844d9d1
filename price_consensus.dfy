// The consensus figures shared by the two multi-source price combiners
// (api_data_collector.py combine_api_data and advanced_crawler.py
// combine_and_analyze_data): truncated mean, the 0.9 / 0.7 ratios, the
// confidence of 25 per contributing source capped at 100, and the
// recommendation and risk bands both files define identically.

module PriceConsensus {
  import opened Wrappers

  /** Python's int(a / n) for n > 0: the quotient truncated toward zero. */
  function TruncDiv(a: int, n: int): int
    requires n > 0
  {
    if a >= 0 then a / n else -((-a) / n)
  }

  lemma FloorDivBetween(a: int, n: int, lo: int, hi: int)
    requires n > 0 && a >= 0 && lo * n <= a <= hi * n
    ensures lo <= a / n <= hi
  {
    var q := a / n;
    assert q * n <= a < q * n + n;
    if q < lo {
      MulMonotone(q, lo - 1, n);
      assert false;
    }
    if q > hi {
      MulMonotone(hi + 1, q, n);
      assert false;
    }
  }

  lemma MulMonotone(x: int, y: int, n: int)
    requires x <= y && n > 0
    ensures x * n <= y * n
  {
    assert y * n - x * n == (y - x) * n;
  }

  lemma TruncDivBetween(a: int, n: int, lo: int, hi: int)
    requires n > 0 && lo * n <= a <= hi * n
    ensures lo <= TruncDiv(a, n) <= hi
  {
    if a >= 0 {
      FloorDivBetween(a, n, lo, hi);
    } else {
      assert (-hi) * n <= -a <= (-lo) * n;
      FloorDivBetween(-a, n, -hi, -lo);
    }
  }

  function Sum(prices: seq<int>): int
  {
    if |prices| == 0 then 0 else prices[0] + Sum(prices[1..])
  }

  function MinOf(prices: seq<int>): (m: int)
    requires |prices| > 0
    ensures m in prices && forall p :: p in prices ==> m <= p
  {
    if |prices| == 1 then prices[0]
    else
      var rest := MinOf(prices[1..]);
      assert forall p :: p in prices ==> p == prices[0] || p in prices[1..];
      if prices[0] <= rest then prices[0] else rest
  }

  function MaxOf(prices: seq<int>): (m: int)
    requires |prices| > 0
    ensures m in prices && forall p :: p in prices ==> p <= m
  {
    if |prices| == 1 then prices[0]
    else
      var rest := MaxOf(prices[1..]);
      assert forall p :: p in prices ==> p == prices[0] || p in prices[1..];
      if prices[0] >= rest then prices[0] else rest
  }

  lemma {:induction false} SumBetween(prices: seq<int>, lo: int, hi: int)
    requires forall p :: p in prices ==> lo <= p <= hi
    ensures lo * |prices| <= Sum(prices) <= hi * |prices|
  {
    if |prices| > 0 {
      assert prices[0] in prices;
      assert forall p :: p in prices[1..] ==> p in prices;
      SumBetween(prices[1..], lo, hi);
      assert lo * |prices| == lo + lo * (|prices| - 1);
      assert hi * |prices| == hi + hi * (|prices| - 1);
    }
  }

  /** int(sum(prices) / len(prices)): always between the smallest and largest price. */
  function TruncMean(prices: seq<int>): (m: int)
    requires |prices| > 0
    ensures MinOf(prices) <= m <= MaxOf(prices)
  {
    SumBetween(prices, MinOf(prices), MaxOf(prices));
    TruncDivBetween(Sum(prices), |prices|, MinOf(prices), MaxOf(prices));
    TruncDiv(Sum(prices), |prices|)
  }

  /** int(m * tenths / 10), e.g. int(m * 0.9) for tenths = 9. */
  function Tenths(m: int, tenths: nat): int
  {
    TruncDiv(m * tenths, 10)
  }

  /** For a non-negative price: ⌊0.7·m⌋ ≤ ⌊0.9·m⌋ ≤ m, each the floor of its product. */
  lemma TenthsOrdered(m: int)
    requires m >= 0
    ensures Tenths(m, 7) <= Tenths(m, 9) <= m
    ensures Tenths(m, 9) * 10 <= m * 9 < Tenths(m, 9) * 10 + 10
    ensures Tenths(m, 7) * 10 <= m * 7 < Tenths(m, 7) * 10 + 10
  {
  }

  /** min(100, 25 * n) */
  function Confidence(n: nat): int
  {
    if 25 * n < 100 then 25 * n else 100
  }

  lemma ConfidenceMonotone(n: nat, k: nat)
    requires n <= k
    ensures Confidence(n) <= Confidence(k) <= 100
    ensures k >= 4 ==> Confidence(k) == 100
  {
  }

  /** get_investment_recommendation on the consensus price. */
  function PriceBand(price: int): string
  {
    if price > 300000000 then "고가 매물 - 신중한 검토 필요"
    else if price > 200000000 then "중가 매물 - 투자 적합"
    else "저가 매물 - 투자 기회"
  }

  /** get_risk_level on the confidence. */
  function RiskLevel(confidence: int): string
  {
    if confidence >= 75 then "낮음" else if confidence >= 50 then "중간" else "높음"
  }

  /** Each band is chosen by its threshold alone: the bands partition the line. */
  lemma BandsPartition(price: int, confidence: int)
    ensures PriceBand(price) == "고가 매물 - 신중한 검토 필요" <==> price > 300000000
    ensures PriceBand(price) == "중가 매물 - 투자 적합" <==> 200000000 < price <= 300000000
    ensures PriceBand(price) == "저가 매물 - 투자 기회" <==> price <= 200000000
    ensures RiskLevel(confidence) == "낮음" <==> confidence >= 75
    ensures RiskLevel(confidence) == "중간" <==> 50 <= confidence < 75
    ensures RiskLevel(confidence) == "높음" <==> confidence < 50
  {
  }

  datatype Analysis = Analysis(
    lowestPrice: int,
    highestPrice: int,
    averagePrice: int,
    priceVariation: real,
    recommendation: string,
    riskLevel: string,
    dataQuality: Option<string>)

  /** The combined record; `analysis` is None for the empty {} of the source. */
  datatype Combined = Combined(
    marketPrice: int,
    appraisalPrice: int,
    minimumBid: int,
    confidence: int,
    sourcesCount: nat,
    analysis: Option<Analysis>)

  function NoConsensus(sourcesCount: nat): Combined
  {
    Combined(0, 0, 0, 0, sourcesCount, None)
  }

  /** The figures both combiners compute from a non-empty price list. */
  function Consensus(prices: seq<int>, sourcesCount: nat, variation: real, quality: Option<string>): Combined
    requires |prices| > 0
  {
    var market := TruncMean(prices);
    var confidence := Confidence(|prices|);
    Combined(market, Tenths(market, 9), Tenths(market, 7), confidence, sourcesCount,
      Some(Analysis(MinOf(prices), MaxOf(prices), market, variation,
                    PriceBand(market), RiskLevel(confidence), quality)))
  }

  /** (max − min) / min · 100 */
  function Variation(prices: seq<int>): real
    requires |prices| > 0 && MinOf(prices) != 0
  {
    (MaxOf(prices) - MinOf(prices)) as real / MinOf(prices) as real * 100.0
  }

  lemma VariationNonNegative(prices: seq<int>)
    requires |prices| > 0 && MinOf(prices) > 0
    ensures Variation(prices) >= 0.0
    ensures MinOf(prices) == MaxOf(prices) ==> Variation(prices) == 0.0
  {
    RatioNonNegative((MaxOf(prices) - MinOf(prices)) as real, MinOf(prices) as real);
  }

  lemma RatioNonNegative(spread: real, low: real)
    requires spread >= 0.0 && low > 0.0
    ensures spread / low * 100.0 >= 0.0
    ensures spread == 0.0 ==> spread / low * 100.0 == 0.0
  {
  }

  /** One entry of the sources dict: a dict with or without the two price keys, or anything else. */
  datatype SourceData = NotADict | Record(marketPrice: Option<int>, appraisalPrice: Option<int>)

  /** A key of the sources dict and its value, in insertion order. */
  datatype Source = Source(name: string, data: SourceData)

  /** The prices the sources contribute under an inclusion rule, in source order. */
  function PricesOf(sources: seq<Source>, rule: SourceData -> Option<int>): (prices: seq<int>)
    ensures |prices| <= |sources|
    ensures forall p :: p in prices ==> exists k :: 0 <= k < |sources| && rule(sources[k].data) == Some(p)
  {
    if |sources| == 0 then []
    else
      var init := sources[..|sources| - 1];
      var earlier := PricesOf(init, rule);
      assert forall p :: p in earlier ==> exists k :: 0 <= k < |init| && rule(init[k].data) == Some(p);
      match rule(sources[|sources| - 1].data)
      case Some(p) => earlier + [p]
      case None => earlier
  }

  /** The names of the contributing sources, parallel to PricesOf. */
  function NamesOf(sources: seq<Source>, rule: SourceData -> Option<int>): (names: seq<string>)
    ensures |names| == |PricesOf(sources, rule)|
  {
    if |sources| == 0 then []
    else
      var earlier := NamesOf(sources[..|sources| - 1], rule);
      match rule(sources[|sources| - 1].data)
      case Some(_) => earlier + [sources[|sources| - 1].name]
      case None => earlier
  }

  /** No price is collected exactly when no source satisfies the rule. */
  lemma {:induction false} PricesOfEmpty(sources: seq<Source>, rule: SourceData -> Option<int>)
    ensures PricesOf(sources, rule) == [] <==> forall k :: 0 <= k < |sources| ==> rule(sources[k].data).None?
  {
    if |sources| > 0 {
      var init := sources[..|sources| - 1];
      PricesOfEmpty(init, rule);
      assert forall k :: 0 <= k < |init| ==> init[k] == sources[k];
    }
  }

  /** Every source the rule accepts contributes its price. */
  lemma {:induction false} PricesOfComplete(sources: seq<Source>, rule: SourceData -> Option<int>, k: int)
    requires 0 <= k < |sources| && rule(sources[k].data).Some?
    ensures rule(sources[k].data).value in PricesOf(sources, rule)
  {
    if k < |sources| - 1 {
      var init := sources[..|sources| - 1];
      assert init[k] == sources[k];
      PricesOfComplete(init, rule, k);
    }
  }
}
