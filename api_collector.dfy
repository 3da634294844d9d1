// The API price combiner of api_data_collector.py: each dict source
// contributes its marketPrice if positive, else its appraisalPrice if
// positive; the contributed prices are merged into one consensus record.

module ApiCollector {
  import opened Wrappers
  import opened PriceConsensus

  /** marketPrice if > 0, else appraisalPrice if > 0, else nothing; non-dicts are skipped. */
  function ApiPrice(d: SourceData): (r: Option<int>)
    ensures r.Some? ==> r.value > 0
    ensures r.Some? <==> d.Record? && ((d.marketPrice.Some? && d.marketPrice.value > 0)
                                     || (d.appraisalPrice.Some? && d.appraisalPrice.value > 0))
  {
    match d
    case NotADict => None
    case Record(market, appraisal) =>
      if market.Some? && market.value > 0 then market
      else if appraisal.Some? && appraisal.value > 0 then appraisal
      else None
  }

  /** The names counted as official by get_data_quality_score. */
  predicate IsOfficial(name: string)
  {
    name == "court_auction" || name == "kb"
  }

  function OfficialCount(names: seq<string>): (n: nat)
    ensures n <= |names|
  {
    if |names| == 0 then 0
    else (if IsOfficial(names[0]) then 1 else 0) + OfficialCount(names[1..])
  }

  /** get_data_quality_score */
  function DataQuality(names: seq<string>): string
  {
    var n := OfficialCount(names);
    if n >= 2 then "높음 (공식 소스 2개 이상)"
    else if n >= 1 then "중간 (공식 소스 1개)"
    else "낮음 (비공식 소스만)"
  }

  lemma {:induction false} OfficialCountZero(names: seq<string>)
    ensures OfficialCount(names) == 0 <==> forall k :: 0 <= k < |names| ==> !IsOfficial(names[k])
  {
    if |names| > 0 {
      OfficialCountZero(names[1..]);
      assert forall k :: 1 <= k < |names| ==> names[k] == names[1..][k - 1];
    }
  }

  /** The quality band is high with two official names, low exactly when none is official. */
  lemma DataQualityBands(names: seq<string>)
    ensures DataQuality(names) == "낮음 (비공식 소스만)"
        <==> forall k :: 0 <= k < |names| ==> !IsOfficial(names[k])
    ensures DataQuality(names) == "높음 (공식 소스 2개 이상)" <==> OfficialCount(names) >= 2
  {
    OfficialCountZero(names);
  }

  /** What combine_api_data returns. */
  function CombineApi(sources: seq<Source>): Combined
  {
    var prices := PricesOf(sources, ApiPrice);
    if |prices| == 0 then NoConsensus(|sources|)
    else
      ContributionsPositive(sources);
      Consensus(prices, |sources|, Variation(prices), Some(DataQuality(NamesOf(sources, ApiPrice))))
  }

  lemma ContributionsPositive(sources: seq<Source>)
    ensures var prices := PricesOf(sources, ApiPrice);
            |prices| > 0 ==> MinOf(prices) > 0
  {
    var prices := PricesOf(sources, ApiPrice);
    if |prices| > 0 {
      var m := MinOf(prices);
      var k :| 0 <= k < |sources| && ApiPrice(sources[k].data) == Some(m);
    }
  }

  /** combine_api_data: the loop collects prices and names, then the consensus is filled in. */
  method CombineApiData(sources: seq<Source>) returns (combined: Combined)
    ensures combined == CombineApi(sources)
  {
    combined := NoConsensus(|sources|);
    var prices: seq<int> := [];
    var names: seq<string> := [];
    var i := 0;
    while i < |sources|
      invariant 0 <= i <= |sources|
      invariant prices == PricesOf(sources[..i], ApiPrice)
      invariant names == NamesOf(sources[..i], ApiPrice)
    {
      assert sources[..i + 1][..i] == sources[..i];
      match ApiPrice(sources[i].data) {
        case Some(p) =>
          prices := prices + [p];
          names := names + [sources[i].name];
        case None =>
      }
      i := i + 1;
    }
    assert sources[..i] == sources;
    if |prices| > 0 {
      ContributionsPositive(sources);
      combined := Consensus(prices, |sources|, Variation(prices), Some(DataQuality(names)));
    }
  }

  /** With no contributing source every figure stays 0 and the analysis stays empty. */
  lemma NoContributor(sources: seq<Source>)
    ensures CombineApi(sources).analysis.None?
        <==> forall k :: 0 <= k < |sources| ==> ApiPrice(sources[k].data).None?
    ensures CombineApi(sources).analysis.None? ==> CombineApi(sources) == NoConsensus(|sources|)
    ensures CombineApi(sources).sourcesCount == |sources|
  {
    PricesOfEmpty(sources, ApiPrice);
  }

  /** The consensus lies between the extreme prices, and the derived figures are ordered. */
  lemma ConsensusFigures(sources: seq<Source>)
    requires CombineApi(sources).analysis.Some?
    ensures var c := CombineApi(sources);
            var a := c.analysis.value;
            && a.lowestPrice <= c.marketPrice <= a.highestPrice
            && 0 <= c.minimumBid <= c.appraisalPrice <= c.marketPrice
            && c.appraisalPrice * 10 <= c.marketPrice * 9 < c.appraisalPrice * 10 + 10
            && c.minimumBid * 10 <= c.marketPrice * 7 < c.minimumBid * 10 + 10
            && c.confidence == Confidence(|PricesOf(sources, ApiPrice)|) <= 100
            && a.priceVariation >= 0.0
            && a.recommendation == PriceBand(c.marketPrice)
            && a.riskLevel == RiskLevel(c.confidence)
  {
    var prices := PricesOf(sources, ApiPrice);
    ContributionsPositive(sources);
    var c := CombineApi(sources);
    TenthsOrdered(c.marketPrice);
    VariationNonNegative(prices);
    ConfidenceMonotone(|prices|, |prices|);
  }

  /** Three sources at 240M, 260M and 250M give 250M, 225M, 175M at confidence 75. */
  lemma ThreeSourceScenario()
    ensures var sources := [
              Source("court_auction", Record(Some(240000000), None)),
              Source("kb", Record(None, Some(260000000))),
              Source("molit", Record(Some(250000000), Some(1)))];
            var c := CombineApi(sources);
            && c.marketPrice == 250000000 && c.appraisalPrice == 225000000
            && c.minimumBid == 175000000 && c.confidence == 75 && c.sourcesCount == 3
            && c.analysis == Some(Analysis(240000000, 260000000, 250000000, 2000000000.0 / 240000000.0,
                                           "중가 매물 - 투자 적합", "낮음",
                                           Some("높음 (공식 소스 2개 이상)")))
  {
    var sources := [
      Source("court_auction", Record(Some(240000000), None)),
      Source("kb", Record(None, Some(260000000))),
      Source("molit", Record(Some(250000000), Some(1)))];
    ThreeSourceLists(sources);
    ThreePriceFigures([240000000, 260000000, 250000000]);
    ThreeSourceQuality(["court_auction", "kb", "molit"]);
  }

  lemma ThreeSourceLists(sources: seq<Source>)
    requires sources == [
      Source("court_auction", Record(Some(240000000), None)),
      Source("kb", Record(None, Some(260000000))),
      Source("molit", Record(Some(250000000), Some(1)))]
    ensures PricesOf(sources, ApiPrice) == [240000000, 260000000, 250000000]
    ensures NamesOf(sources, ApiPrice) == ["court_auction", "kb", "molit"]
  {
    assert sources[..2][..1] == sources[..1];
    assert sources[..2] == sources[..|sources| - 1];
    ThreeSourcePrices(sources);
    ThreeSourceNames(sources);
  }

  lemma ThreeSourcePrices(sources: seq<Source>)
    requires |sources| == 3 && sources[..2][..1] == sources[..1] && sources[..2] == sources[..|sources| - 1]
    requires ApiPrice(sources[0].data) == Some(240000000)
    requires ApiPrice(sources[1].data) == Some(260000000)
    requires ApiPrice(sources[2].data) == Some(250000000)
    ensures PricesOf(sources, ApiPrice) == [240000000, 260000000, 250000000]
  {
    assert PricesOf(sources[..1], ApiPrice) == [240000000];
    assert PricesOf(sources[..2], ApiPrice) == [240000000, 260000000];
  }

  lemma ThreeSourceNames(sources: seq<Source>)
    requires |sources| == 3 && sources[..2][..1] == sources[..1] && sources[..2] == sources[..|sources| - 1]
    requires ApiPrice(sources[0].data).Some? && ApiPrice(sources[1].data).Some?
    requires ApiPrice(sources[2].data).Some?
    requires sources[0].name == "court_auction" && sources[1].name == "kb" && sources[2].name == "molit"
    ensures NamesOf(sources, ApiPrice) == ["court_auction", "kb", "molit"]
  {
    assert NamesOf(sources[..1], ApiPrice) == ["court_auction"];
    assert NamesOf(sources[..2], ApiPrice) == ["court_auction", "kb"];
  }

  lemma ThreePriceFigures(prices: seq<int>)
    requires prices == [240000000, 260000000, 250000000]
    ensures MinOf(prices) == 240000000 && MaxOf(prices) == 260000000
    ensures TruncMean(prices) == 250000000
    ensures Variation(prices) == 2000000000.0 / 240000000.0
  {
    assert prices[1..][1..] == [250000000];
    assert Sum(prices[1..][1..]) == 250000000 by {
      assert prices[1..][1..][1..] == [];
    }
    assert MinOf(prices[1..]) == 250000000 && MaxOf(prices[1..]) == 260000000;
    assert Sum(prices[1..]) == 510000000;
  }

  lemma ThreeSourceQuality(names: seq<string>)
    requires names == ["court_auction", "kb", "molit"]
    ensures OfficialCount(names) == 2
  {
    assert names[1..][1..] == ["molit"];
    assert names[1..][1..][1..] == [];
    assert OfficialCount(names[1..][1..]) == 0;
    assert OfficialCount(names[1..]) == 1;
  }
}
