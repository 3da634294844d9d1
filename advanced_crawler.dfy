// The multi-source crawler of advanced_crawler.py: which providers are
// consulted, how their dicts are gathered into the sources dict, the
// key-present combiner over them, and the digits-only price parser.

module AdvancedCrawler {
  import opened Wrappers
  import opened Text
  import opened PriceConsensus
  import ApiCollector

  /** marketPrice whenever that key is present (even 0), else appraisalPrice if present. */
  function AdvancedPrice(d: SourceData): (r: Option<int>)
    ensures r.Some? <==> d.Record? && (d.marketPrice.Some? || d.appraisalPrice.Some?)
    ensures d.Record? && d.marketPrice.Some? ==> r == d.marketPrice
  {
    match d
    case NotADict => None
    case Record(market, appraisal) => if market.Some? then market else appraisal
  }

  /** Every source the API collector counts is counted here too, with the same price when
      marketPrice is positive; a present-but-zero marketPrice is where the two rules part. */
  lemma InclusionRulesCompared(d: SourceData)
    ensures ApiCollector.ApiPrice(d).Some? ==> AdvancedPrice(d).Some?
    ensures d.Record? && d.marketPrice.Some? && d.marketPrice.value > 0
            ==> ApiCollector.ApiPrice(d) == AdvancedPrice(d)
    ensures d == Record(Some(0), Some(5)) ==> ApiCollector.ApiPrice(d) == Some(5) && AdvancedPrice(d) == Some(0)
  {
  }

  datatype PyError = ZeroDivisionError

  /** combine_and_analyze_data as written: the price variation divides by min(prices) unguarded. */
  function CombineAsWritten(sources: seq<Source>): Result<Combined, PyError>
  {
    var prices := PricesOf(sources, AdvancedPrice);
    if |prices| == 0 then Ok(NoConsensus(|sources|))
    else if MinOf(prices) == 0 then Err(ZeroDivisionError)
    else Ok(Consensus(prices, |sources|, Variation(prices), None))
  }

  /** The variation with the zero guard the rest of the model uses. */
  function GuardedVariation(prices: seq<int>): (v: real)
    requires |prices| > 0
    ensures MinOf(prices) == 0 ==> v == 0.0
    ensures MinOf(prices) != 0 ==> v == Variation(prices)
  {
    if MinOf(prices) == 0 then 0.0 else Variation(prices)
  }

  /** combine_and_analyze_data with the zero guard: never fails. */
  function Combine(sources: seq<Source>): Combined
  {
    var prices := PricesOf(sources, AdvancedPrice);
    if |prices| == 0 then NoConsensus(|sources|)
    else Consensus(prices, |sources|, GuardedVariation(prices), None)
  }

  method CombineAndAnalyzeData(sources: seq<Source>) returns (combined: Combined)
    ensures combined == Combine(sources)
  {
    combined := NoConsensus(|sources|);
    var prices: seq<int> := [];
    var i := 0;
    while i < |sources|
      invariant 0 <= i <= |sources|
      invariant prices == PricesOf(sources[..i], AdvancedPrice)
    {
      assert sources[..i + 1][..i] == sources[..i];
      var data := sources[i].data;
      if data.Record? {
        if data.marketPrice.Some? {
          prices := prices + [data.marketPrice.value];
        } else if data.appraisalPrice.Some? {
          prices := prices + [data.appraisalPrice.value];
        }
      }
      i := i + 1;
    }
    assert sources[..i] == sources;
    if |prices| > 0 {
      var variation := 0.0;
      if MinOf(prices) != 0 {
        variation := Variation(prices);
      }
      combined := Consensus(prices, |sources|, variation, None);
    }
  }

  /** Every price a source can hold is non-negative (parse_price never yields a negative). */
  predicate NonNegativePrices(d: SourceData)
  {
    d.Record? ==>
      (d.marketPrice.Some? ==> d.marketPrice.value >= 0) && (d.appraisalPrice.Some? ==> d.appraisalPrice.value >= 0)
  }

  /** With non-negative prices the unguarded combiner fails exactly when some source
      contributes a price of 0; otherwise it agrees with the guarded one. */
  lemma AsWrittenFailsOnZero(sources: seq<Source>)
    requires forall k :: 0 <= k < |sources| ==> NonNegativePrices(sources[k].data)
    ensures CombineAsWritten(sources).Err?
        <==> exists k :: 0 <= k < |sources| && AdvancedPrice(sources[k].data) == Some(0)
    ensures CombineAsWritten(sources).Ok? ==> CombineAsWritten(sources).value == Combine(sources)
  {
    var prices := PricesOf(sources, AdvancedPrice);
    if CombineAsWritten(sources).Err? {
      var k :| 0 <= k < |sources| && AdvancedPrice(sources[k].data) == Some(MinOf(prices));
    }
    if k :| 0 <= k < |sources| && AdvancedPrice(sources[k].data) == Some(0) {
      PricesOfComplete(sources, AdvancedPrice, k);
      var j :| 0 <= j < |sources| && AdvancedPrice(sources[j].data) == Some(MinOf(prices));
      assert NonNegativePrices(sources[j].data);
    }
  }

  /** A court record whose market-price cell held no digits: the unguarded combiner raises. */
  lemma ZeroMarketPriceRaises()
    ensures CombineAsWritten([Source("court_auction", Record(Some(0), Some(0)))]) == Err(ZeroDivisionError)
    ensures Combine([Source("court_auction", Record(Some(0), Some(0)))])
         == Combined(0, 0, 0, 25, 1, Some(Analysis(0, 0, 0, 0.0, "저가 매물 - 투자 기회", "높음", None)))
  {
    var sources := [Source("court_auction", Record(Some(0), Some(0)))];
    assert sources[..0] == [];
    assert PricesOf(sources, AdvancedPrice) == [0];
  }

  /** The guarded combiner's figures: between the extreme prices, ordered, capped confidence. */
  lemma CombinedFigures(sources: seq<Source>)
    requires forall k :: 0 <= k < |sources| ==> NonNegativePrices(sources[k].data)
    ensures var c := Combine(sources);
            var prices := PricesOf(sources, AdvancedPrice);
            && c.sourcesCount == |sources|
            && (c.analysis.None? <==> forall k :: 0 <= k < |sources| ==> AdvancedPrice(sources[k].data).None?)
            && (c.analysis.None? ==> c == NoConsensus(|sources|))
            && (c.analysis.Some? ==>
                  && c.analysis.value.lowestPrice <= c.marketPrice <= c.analysis.value.highestPrice
                  && 0 <= c.minimumBid <= c.appraisalPrice <= c.marketPrice
                  && c.confidence == Confidence(|prices|) <= 100
                  && c.analysis.value.priceVariation >= 0.0
                  && c.analysis.value.dataQuality.None?)
  {
    var prices := PricesOf(sources, AdvancedPrice);
    PricesOfEmpty(sources, AdvancedPrice);
    if |prices| > 0 {
      var j :| 0 <= j < |sources| && AdvancedPrice(sources[j].data) == Some(MinOf(prices));
      assert NonNegativePrices(sources[j].data);
      TenthsOrdered(TruncMean(prices));
      ConfidenceMonotone(|prices|, |prices|);
      if MinOf(prices) > 0 {
        VariationNonNegative(prices);
      }
    }
  }

  /** parse_price: the digits of the text read as one number, 0 when there are none. */
  function ParsePrice(text: string): nat
  {
    var digits := KeepDigits(text);
    if |digits| == 0 then 0 else DigitsValue(digits)
  }

  /** A numeral reads back as its value; the non-digits of a text never matter. */
  lemma ParsePriceProperties(n: nat, text: string)
    ensures ParsePrice(Numeral(n)) == n
    ensures ParsePrice(KeepDigits(text)) == ParsePrice(text)
    ensures (forall i :: 0 <= i < |text| ==> !IsDigit(text[i])) ==> ParsePrice(text) == 0
  {
    KeepDigitsOfDigits(Numeral(n));
    NumeralValue(n);
    KeepDigitsOfDigits(KeepDigits(text));
    KeepDigitsEmpty(text);
  }

  /** The four providers; a None result stands for None or an empty dict. */
  datatype Providers = Providers(
    court: string -> Option<SourceData>,
    richgo: (string, Option<string>) -> Option<SourceData>,
    estate114: (Option<string>, Option<string>) -> bool,
    zigbang: (Option<string>, Option<string>) -> bool)

  /** Python truthiness of the optional location string. */
  predicate Truthy(s: Option<string>)
  {
    s.Some? && |s.value| > 0
  }

  datatype CrawlResult = CrawlResult(caseNumber: string, sources: seq<Source>, combined: Combined)

  /** The sources dict crawl_multiple_sources assembles: court always, richgo only with a
      location, then the other sites. */
  function CrawledSources(p: Providers, caseNumber: string, location: Option<string>,
                          propertyType: Option<string>): seq<Source>
  {
    var court := p.court(caseNumber);
    var courtPart := if court.Some? then [Source("court_auction", court.value)] else [];
    var richgo := if Truthy(location) then p.richgo(location.value, propertyType) else None;
    var richgoPart := if richgo.Some? then [Source("richgo", richgo.value)] else [];
    var othersFound := p.estate114(location, propertyType) || p.zigbang(location, propertyType);
    var otherPart := if othersFound then [Source("other_sites", NotADict)] else [];
    courtPart + richgoPart + otherPart
  }

  /** crawl_multiple_sources with the corrected, zero-guarded combination: the sources dict and
      the combination of exactly its entries. */
  function CrawlMultipleSources(p: Providers, caseNumber: string, location: Option<string>,
                                propertyType: Option<string>): CrawlResult
  {
    var sources := CrawledSources(p, caseNumber, location, propertyType);
    CrawlResult(caseNumber, sources, Combine(sources))
  }

  /** crawl_multiple_sources as written: the combination at the end is not guarded, so a
      contributed price of 0 makes the whole crawl raise ZeroDivisionError. */
  function CrawlMultipleSourcesAsWritten(p: Providers, caseNumber: string, location: Option<string>,
                                         propertyType: Option<string>): Result<CrawlResult, PyError>
  {
    var sources := CrawledSources(p, caseNumber, location, propertyType);
    match CombineAsWritten(sources)
    case Err(e) => Err(e)
    case Ok(combined) => Ok(CrawlResult(caseNumber, sources, combined))
  }

  /** With non-negative provider prices the crawl as written raises exactly when some entry of
      the sources dict contributes a price of 0; otherwise it returns what the guarded crawl
      returns. */
  lemma CrawlAsWrittenFailsOnZero(p: Providers, caseNumber: string, location: Option<string>,
                                  propertyType: Option<string>)
    requires var sources := CrawledSources(p, caseNumber, location, propertyType);
             forall k :: 0 <= k < |sources| ==> NonNegativePrices(sources[k].data)
    ensures var sources := CrawledSources(p, caseNumber, location, propertyType);
            (CrawlMultipleSourcesAsWritten(p, caseNumber, location, propertyType).Err?
             <==> exists k :: 0 <= k < |sources| && AdvancedPrice(sources[k].data) == Some(0))
    ensures CrawlMultipleSourcesAsWritten(p, caseNumber, location, propertyType).Ok?
            ==> CrawlMultipleSourcesAsWritten(p, caseNumber, location, propertyType).value
                == CrawlMultipleSources(p, caseNumber, location, propertyType)
  {
    AsWrittenFailsOnZero(CrawledSources(p, caseNumber, location, propertyType));
  }

  /** A court page whose price cell holds no digits gives marketPrice int(0 * 1.1) = 0; with no
      location the written crawl then raises, where the guarded crawl returns a record. */
  lemma CourtZeroPriceCrawlRaises(p: Providers, caseNumber: string, propertyType: Option<string>)
    requires p.court(caseNumber) == Some(Record(Some(0), Some(0)))
    ensures CrawlMultipleSourcesAsWritten(p, caseNumber, None, propertyType) == Err(ZeroDivisionError)
    ensures CrawlMultipleSources(p, caseNumber, None, propertyType).combined.analysis.Some?
  {
    var courtPart, richgoPart, otherPart := SourceParts(p, caseNumber, None, propertyType);
    var sources := CrawledSources(p, caseNumber, None, propertyType);
    AsWrittenFailsOnZero(sources);
    assert AdvancedPrice(sources[0].data) == Some(0);
    CombinedFigures(sources);
  }

  function NamesOfSources(sources: seq<Source>): seq<string>
  {
    seq(|sources|, k requires 0 <= k < |sources| => sources[k].name)
  }

  /** The sources dict holds court_auction, richgo and other_sites, each exactly when its
      provider produced something. */
  lemma CrawlSourceNames(p: Providers, caseNumber: string, location: Option<string>, propertyType: Option<string>)
    ensures var names := NamesOfSources(CrawledSources(p, caseNumber, location, propertyType));
            && ("court_auction" in names <==> p.court(caseNumber).Some?)
            && ("richgo" in names <==> Truthy(location) && p.richgo(location.value, propertyType).Some?)
            && ("other_sites" in names <==> p.estate114(location, propertyType) || p.zigbang(location, propertyType))
  {
    var courtPart, richgoPart, otherPart := SourceParts(p, caseNumber, location, propertyType);
    var names := NamesOfSources(courtPart + richgoPart + otherPart);
    var otherNames := NamesOfSources(otherPart);
    assert otherNames == if |otherPart| == 1 then ["other_sites"] else [];
    assert names == NamesOfSources(courtPart) + NamesOfSources(richgoPart) + otherNames;
  }

  /** In that order: court_auction first when present, other_sites last, and other_sites
      never yields a price. */
  lemma CrawlSourceOrder(p: Providers, caseNumber: string, location: Option<string>, propertyType: Option<string>)
    ensures var sources := CrawledSources(p, caseNumber, location, propertyType);
            && (p.court(caseNumber).Some? ==> sources[0] == Source("court_auction", p.court(caseNumber).value))
            && (forall k :: 0 <= k < |sources| && sources[k].name == "other_sites"
                  ==> k == |sources| - 1 && AdvancedPrice(sources[k].data).None?)
            && |sources| <= 3
  {
    var courtPart, richgoPart, otherPart := SourceParts(p, caseNumber, location, propertyType);
    assert forall x: Source :: x in courtPart + richgoPart ==> x.name != "other_sites";
  }

  /** The three parts the sources dict is assembled from, each empty or a single entry. */
  lemma SourceParts(p: Providers, caseNumber: string, location: Option<string>, propertyType: Option<string>)
    returns (courtPart: seq<Source>, richgoPart: seq<Source>, otherPart: seq<Source>)
    ensures CrawledSources(p, caseNumber, location, propertyType) == courtPart + richgoPart + otherPart
    ensures NamesOfSources(courtPart) == if p.court(caseNumber).Some? then ["court_auction"] else []
    ensures courtPart == if p.court(caseNumber).Some? then [Source("court_auction", p.court(caseNumber).value)] else []
    ensures richgoPart
         == if Truthy(location) && p.richgo(location.value, propertyType).Some?
            then [Source("richgo", p.richgo(location.value, propertyType).value)] else []
    ensures NamesOfSources(richgoPart)
         == if Truthy(location) && p.richgo(location.value, propertyType).Some? then ["richgo"] else []
    ensures otherPart
         == if p.estate114(location, propertyType) || p.zigbang(location, propertyType)
            then [Source("other_sites", NotADict)] else []
  {
    var court := p.court(caseNumber);
    courtPart := if court.Some? then [Source("court_auction", court.value)] else [];
    var richgo := if Truthy(location) then p.richgo(location.value, propertyType) else None;
    richgoPart := if richgo.Some? then [Source("richgo", richgo.value)] else [];
    var othersFound := p.estate114(location, propertyType) || p.zigbang(location, propertyType);
    otherPart := if othersFound then [Source("other_sites", NotADict)] else [];
  }

  /** Without a truthy location the richgo provider is never consulted: the result does
      not depend on it. */
  lemma RichgoNeedsLocation(p: Providers, q: Providers, caseNumber: string,
                            location: Option<string>, propertyType: Option<string>)
    requires p.court == q.court && p.estate114 == q.estate114 && p.zigbang == q.zigbang
    requires !Truthy(location)
    ensures CrawlMultipleSources(p, caseNumber, location, propertyType)
         == CrawlMultipleSources(q, caseNumber, location, propertyType)
  {
  }
}
