# Bid simulator core in Dafny

This project models the deterministic core of a Korean court-auction bid simulator. The web app, the Flask scrapers and the iOS app share the same logic:

- **Regional sale statistics** (`auction_statistics.py`, `RegionStatistics.swift`):
  - per-district records and per-region summaries built from parsed rows;
  - three-tier district lookup;
  - stable top-N rankings;
  - market, competition and recommendation bands.
- **Location extraction** (`fix-sale-rate.js`): the region and district read from an address, the curated sale-rate record, and the comparison of two data sources.
- **Multi-source price consensus** (`api_data_collector.py`, `advanced_crawler.py`):
  - truncated mean, the 0.9 / 0.7 bid ratios, confidence, price variation, recommendation and risk bands;
  - the data-quality grade.
- **Crawlers as ordered fallback chains** (`real_court_auction_crawler.py`, `auction_crawler.py`):
  - providers are parameters, and the first success wins;
  - case-number and price-text parsers;
  - HTML row rules over parsed cells;
  - the case-number-seeded synthetic tier, search listings and simulation data.
- **Bid and cost calculators**:
  - the pure calculators of `script.js`, with JavaScript numbers modelled as finite, infinite or NaN;
  - `AuctionCalculator.swift`;
  - the inspection checklist score;
  - `PropertyType.from(string:)` and the court grouping.
- **Property stores**:
  - the `StorageManager` and `simpleStorage` objects over browser local storage;
  - the Swift `DataManager` over user defaults;
  - each is modelled as a class whose fields the methods update in place, with the persisted value as a field and write success as a parameter.
- **CSV** (`excel-data-manager.js`):
  - field escaping and line parsing in the style of items 6-7 of section 2 of RFC 4180;
  - export, row filtering, property creation and the file-type test.

Each source file is one module. Shared helpers live in four more modules:

- `Wrappers`: option and result types;
- `Text`: Python and JavaScript whitespace, digits, splitting, ASCII lower case;
- `Sorting`: stable descending sorts, which are the way Python's `sort(reverse=True)`, JavaScript's `sort` and Swift's `sorted(by:)` are used here;
- `JsNumber`: JavaScript and Swift floating-point outcomes of division and comparison.

## Model

| member | source | states |
|---|---|---|
| AuctionStatistics.DistrictAverages | auction_statistics.py:86-95 | each per-case average times its count gives back the amount; it is 0 when the count is 0 |
| AuctionStatistics.RatesAsSupplied | auction_statistics.py:76-91 | the stored rates depend only on their own cells (never on the counts), and a cell that is not digits-with-dots stores 0.0 |
| AuctionStatistics.RateReadings | auction_statistics.py:79-84 | "85" and "85.3" read as numbers, "-" and "" are not numeric, "1.2.3" passes the digit test but float() raises, so both rates become 0.0 |
| AuctionStatistics.AssignLookup | auction_statistics.py:86 | after `districts[name] = stats`, name looks up stats and every other key looks up what it did before |
| AuctionStatistics.DistrictsOfLookup | auction_statistics.py:58-95 | after the loop a district is stored exactly when some row names it, with the record built from the last such row |
| AuctionStatistics.DistrictsOfDistinct | auction_statistics.py:86 | the district table never holds a key twice |
| AuctionStatistics.ProcessRegionData | auction_statistics.py:38-112 | the loop raises ValueError as soon as a count cell fails int(), and otherwise yields the district table and the summary the functional definition gives, with distinct keys and every row's district present |
| AuctionStatistics.ReadRow | auction_statistics.py:61-62 | a row reads exactly when int() accepts both count cells, keeping the district and the counts int() gives |
| AuctionStatistics.ReadRowsFails | auction_statistics.py:58-62 | one row whose counts raise makes the whole pass raise, whatever follows it |
| AuctionStatistics.ReadRowsShape | auction_statistics.py:58-62 | the pass succeeds exactly when every row's counts read, and then holds one row per line, the one that line reads as |
| AuctionStatistics.ProcessRegionTable | auction_statistics.py:58-95 | a region that loads stores each district once, and every line's district is stored |
| AuctionStatistics.UnreadableCountsUnloaded | auction_statistics.py:27-34 | a count cell that int() rejects leaves the region out of the index (the handler at :33-34), so it has no summary |
| AuctionStatistics.CountReadsDigits | auction_statistics.py:61-62 | a digits-only count cell reads as its value |
| AuctionStatistics.CountRejectsBlank | auction_statistics.py:61-62 | the count cells "-" and "" raise ValueError |
| AuctionStatistics.CountRejectsFloat | auction_statistics.py:61-62 | a count rendered as "12.0" raises ValueError |
| AuctionStatistics.PyIntRejects | auction_statistics.py:61-62 | int() raises on a stripped, unsigned text holding a character that is neither a digit nor '_' |
| AuctionStatistics.ReadRows | auction_statistics.py:58-62 | defines the rows read in order, None once a row raises; ReadRowsShape and ReadRowsFails state it |
| AuctionStatistics.ProcessRegion | auction_statistics.py:38-112 | defines process_region_data's result or its ValueError; ProcessRegionData computes it and ProcessRegionTable states the table |
| AuctionStatistics.LoadRegion | auction_statistics.py:27-34 | defines one region's load in load_all_data: stored on success, left out when processing raises; UnreadableCountsUnloaded states it |
| AuctionStatistics.SummaryRates | auction_statistics.py:103-110 | each overall rate times its divisor total is 100 times the other total, and the rate is 0.0 when the divisor total is 0 |
| AuctionStatistics.TotalsMatchTable | auction_statistics.py:97-100 | when no district repeats, each summary total equals the sum of that field over the stored districts |
| AuctionStatistics.RegionSummaryOfRows | auction_statistics.py:137-141 | a loaded region's summary totals are the row sums; an unloaded region gives None |
| AuctionStatistics.GetDistrictStatistics | auction_statistics.py:114-135 | the method with its early returns computes the three-tier lookup |
| AuctionStatistics.DistrictStatisticsNone | auction_statistics.py:114-135 | the lookup gives None exactly when the region is unknown or no stored district occurs in the query or contains it |
| AuctionStatistics.LookupRelated | auction_statistics.py:130-133 | a stored district that occurs in the query guarantees the substring pass finds a record |
| AuctionStatistics.ScanRelatedNone | auction_statistics.py:131-133 | the substring pass finds nothing exactly when no stored district is related to the query |
| AuctionStatistics.LastTokenOccurs | auction_statistics.py:124-126 | the last space-separated token retried for 경기 is a substring of the query |
| AuctionStatistics.TierOrder | auction_statistics.py:116-135 | an exact key beats an earlier stored district found by substring; for 경기 the last token of "수원시 영통구" beats the earlier "수원시"; an unknown region gives None |
| AuctionStatistics.FindBestDistricts | auction_statistics.py:150-174 | the loop plus stable sort plus `[:limit]` computes the functional ranking |
| AuctionStatistics.TopDistrictsSpec | auction_statistics.py:150-174 | an unknown region gives []; otherwise the ranking has Python's `[:limit]` length, is non-increasing in the metric, holds only stored districts, keeps load order among equal metrics, and holds the top entries: a stored district left out never ranks above one kept |
| AuctionStatistics.RankingSpec | auction_statistics.py:160-161 | sorting then slicing gives the sliced length, non-increasing order and only input elements, and every element left out ranks no higher than every element kept |
| AuctionStatistics.RankingStable | auction_statistics.py:160-161 | for every metric value, the ranked entries with that value appear in their original order |
| AuctionStatistics.RoundTenth | auction_statistics.py:188 | Python's round(x, 1) lies within 0.05 of x |
| AuctionStatistics.RoundTenthMonotone | auction_statistics.py:188 | round(x, 1) never decreases as x grows |
| AuctionStatistics.ScoreBounds | auction_statistics.py:182-188 | with both rates in [0, 100] the market score lies in [0, 100] |
| AuctionStatistics.ScoreMonotone | auction_statistics.py:182-188 | the market score never drops when either rate rises |
| AuctionStatistics.MarketScoreNotFound | auction_statistics.py:178-180 | a district that is not found scores exactly 50.0 |
| AuctionStatistics.CompetitionMonotone | auction_statistics.py:196-207 | a higher sale rate never gives a lower competition band (thresholds 35/25/15/10) |
| AuctionStatistics.RecommendationAgrees | auction_statistics.py:209-245 | the advice carries the market score; a missing district gives {보통, 50, 데이터 부족}; otherwise the band follows the score and the competition level is that of the same query |
| AuctionStatistics.RecommendationMonotone | auction_statistics.py:222-236 | a higher score never gives a lower recommendation (thresholds 80/65/50/35) |
| AuctionStatistics.ScoringScenario | auction_statistics.py:176-245 | sale rate 30 and sale price rate 85 score 70.0, which is 추천 with competition 높음 |
| AuctionStatistics.PrefixIsTop | auction_statistics.py:160-161 | a head slice of a non-increasing list holds the top entries: nothing outside it ranks above anything in it |
| AuctionStatistics.TopDistricts | auction_statistics.py:150-174 | defines the ranking as the stable descending sort by the metric followed by `[:limit]`; its length, order, top-entries and tie rules are proved by TopDistrictsSpec |
| AuctionStatistics.DistrictStatistics | auction_statistics.py:114-135 | defines the three-tier lookup (exact key, the last token for 경기 when the query has 시, then the first related stored district); its None case and tier order are proved by DistrictStatisticsNone and TierOrder |
| AuctionStatistics.MarketConditionScore | auction_statistics.py:176-188 | defines the score as 50.0 for a district not found, else round(0.6·min(2·sale rate, 100) + 0.4·sale price rate, 1); bounds and monotonicity are in ScoreBounds and ScoreMonotone |
| AuctionStatistics.CompetitionLevel | auction_statistics.py:190-207 | defines the band as 보통 for a district not found, else the 35/25/15/10 sale-rate bands; CompetitionMonotone orders them |
| AuctionStatistics.InvestmentRecommendation | auction_statistics.py:209-245 | defines the advice from the same lookup, score and competition level; RecommendationAgrees and RecommendationMonotone state its agreement and order |
| AuctionStatistics.RegionSummary | auction_statistics.py:137-141 | defines get_region_summary as the stored summary of a known region and None otherwise; RegionSummaryOfRows ties it to the row totals |
| RegionStatistics.RecommendationStars | bidcal/bidcal/Models/RegionStatistics.swift:15-20 | no recommendation gives the empty text, otherwise the recommendation itself |
| RegionStatistics.RateIn | bidcal/bidcal/Models/RegionStatistics.swift:71-76 | the rate of the first row answering the lookup, and 80.0 when no row answers |
| RegionStatistics.RegionData.constructor | bidcal/bidcal/Models/RegionStatistics.swift:24-27 | the shared store starts with no statistics |
| RegionStatistics.RegionData.LoadStatistics | bidcal/bidcal/Models/RegionStatistics.swift:64-68 | whatever the region, the statistics become the five sample rows |
| RegionStatistics.RegionData.GetSalePriceRate | bidcal/bidcal/Models/RegionStatistics.swift:71-76 | the lookup over the stored rows: region and district when a district is given, region alone otherwise, else 80.0 |
| RegionStatistics.NoRegionFallback | bidcal/bidcal/Models/RegionStatistics.swift:72-74 | with a district given, a row of the same region for another district is never used: without an exact row the answer is 80.0 |
| RegionStatistics.SampleLookups | bidcal/bidcal/Models/RegionStatistics.swift:71-85 | on the sample rows 서울/강남구 and 서울 give 85.3, 경기 gives 78.5, while 경기/성남시 and 대구 give the default 80.0 |
| RegionStatistics.Districts | bidcal/bidcal/Models/RegionStatistics.swift:36-58 | a region outside the nine listed has no districts |
| RegionStatistics.ListedRegionsHaveDistricts | bidcal/bidcal/Models/RegionStatistics.swift:30-58 | each of the nine listed regions has at least four districts |
| SaleRateFix.BoundedMatchContains | fix-sale-rate.js:116-117 | a `\b`-bounded match of a district name is also a plain occurrence of it |
| SaleRateFix.NoWordCharNoBoundedMatch | fix-sale-rate.js:116-117 | in text without ASCII word characters `\b` never holds, so the bounded pass never matches a Hangul address |
| SaleRateFix.ByLengthSpec | fix-sale-rate.js:168 | the length sort is longest first and keeps exactly the listed names |
| SaleRateFix.First | fix-sale-rate.js:170-183 | a for-of scan returns a listed name satisfying the test, and returns nothing exactly when no name does |
| SaleRateFix.FirstIsEarliest | fix-sale-rate.js:170-176 | the scan's hit comes before every other name that passes the test |
| SaleRateFix.FirstIsLongest | fix-sale-rate.js:167-176 | over the longest-first list the hit is at least as long as every other passing name |
| SaleRateFix.ExtractDistrictFromLocation | fix-sale-rate.js:134-186 | the two early-returning loops compute the district reader's answer |
| SaleRateFix.ScanLocation | fix-sale-rate.js:134-186 | the same over any list of names: falsy input gives null, then the bounded pass, then the substring pass |
| SaleRateFix.FirstMethod | fix-sale-rate.js:170-176 | the loop returns the first name that passes the test, or null |
| SaleRateFix.ScanNamesHit | fix-sale-rate.js:170-185 | the two passes find something exactly when some listed name occurs in the text, and what they find is a listed name that occurs |
| SaleRateFix.DistrictFound | fix-sale-rate.js:134-185 | null exactly for an empty or missing location or one naming no listed district after trimming; otherwise a listed district that the trimmed location contains |
| SaleRateFix.DistrictLongest | fix-sale-rate.js:167-183 | no district with a bounded match, or (when none has one) no district occurring in the text, is longer than the answer |
| SaleRateFix.GangdongOverDonggu | fix-sale-rate.js:154-183 | "서울시 강동구" reads as a name of three or more characters, never as the shorter 동구 it contains |
| SaleRateFix.ExtractRegionFromLocation | fix-sale-rate.js:83-131 | the nested loops compute the region reader's answer |
| SaleRateFix.ScanRegionsLoop | fix-sale-rate.js:110-130 | the outer loop over the regions, each with a bounded and a substring pass, returns the first region with a hit |
| SaleRateFix.ScanRegionsFirst | fix-sale-rate.js:110-130 | null exactly when no region lists a name occurring in the text; otherwise the first region in scan order that lists one, all earlier regions listing none |
| SaleRateFix.ScanRegionsSecond | fix-sale-rate.js:110-128 | when the first region has no name in the text and the second has one, the second region is the answer |
| SaleRateFix.JungguReadsAsSeoul | fix-sale-rate.js:95-128 | 중구 is listed under 서울 before 부산, so "부산 중구" reads as 서울 |
| SaleRateFix.SaleRateInfoApplies | fix-sale-rate.js:193-234 | true exactly when the extracted district has curated data, and then the trimmed location contains a curated district |
| SaleRateFix.CuratedFound | fix-sale-rate.js:193-198 | the same for any district list and any curated table |
| SaleRateFix.GangdongHasNoCuratedRate | fix-sale-rate.js:35-79 | an address in 강동구, which has no curated data, gives false |
| SaleRateFix.CompareDataSources | fix-sale-rate.js:238-257 | no_data exactly when either object is missing; a conflict only between two rates that are numbers |
| SaleRateFix.CompareRates | fix-sale-rate.js:243-253 | two finite rates conflict exactly when they differ by more than one point, symmetrically; a NaN rate and two equal infinities match |
| SaleRateFix.ExtractDistrict | fix-sale-rate.js:134-186 | defines extractDistrictFromLocation over all listed districts; DistrictFound and DistrictLongest state what it returns |
| SaleRateFix.ExtractRegion | fix-sale-rate.js:83-131 | defines extractRegionFromLocation over the region list; ScanRegionsFirst states what it returns |
| SaleRateFix.SetAccurateSaleRateInfo | fix-sale-rate.js:189-235 | defines the value setAccurateSaleRateInfo returns; SaleRateInfoApplies states when it is true |
| PriceConsensus.TruncDivBetween | api_data_collector.py:286 | a truncated quotient of a total lying between lo·n and hi·n lies between lo and hi |
| PriceConsensus.MinOf | api_data_collector.py:293 | min(prices) is one of the prices and no price is smaller |
| PriceConsensus.MaxOf | api_data_collector.py:293 | max(prices) is one of the prices and no price is larger |
| PriceConsensus.SumBetween | api_data_collector.py:286 | the total of prices that all lie in [lo, hi] lies in [lo·n, hi·n] |
| PriceConsensus.TruncMean | api_data_collector.py:286 | the truncated mean price lies between the smallest and the largest price |
| PriceConsensus.TenthsOrdered | api_data_collector.py:287-288 | for a non-negative price the minimum bid is at most the appraisal figure, which is at most the price, each the floor of 0.7·m and 0.9·m |
| PriceConsensus.ConfidenceMonotone | api_data_collector.py:289 | confidence never falls as sources are added, never exceeds 100 and reaches it at four sources |
| PriceConsensus.BandsPartition | api_data_collector.py:303-319 | each recommendation band and each risk level holds exactly on its own price or confidence range |
| PriceConsensus.VariationNonNegative | api_data_collector.py:295 | with a positive minimum the spread percentage is non-negative, and zero when all prices agree |
| PriceConsensus.PricesOf | api_data_collector.py:274-281 | the collected prices are at most one per source, each the price the inclusion rule takes from some source |
| PriceConsensus.NamesOf | api_data_collector.py:271-281 | one contributing name per collected price |
| PriceConsensus.PricesOfEmpty | api_data_collector.py:274-283 | no price is collected exactly when the rule accepts no source |
| PriceConsensus.PricesOfComplete | api_data_collector.py:274-281 | every source the rule accepts contributes its price |
| ApiCollector.ApiPrice | api_data_collector.py:275-282 | a dict source contributes its marketPrice when positive, else its appraisalPrice when positive, else nothing; every contribution is positive |
| ApiCollector.OfficialCount | api_data_collector.py:323-324 | the number of official contributors is at most the number of contributors |
| ApiCollector.OfficialCountZero | api_data_collector.py:324 | no official contributor is counted exactly when none of the names is official |
| ApiCollector.DataQualityBands | api_data_collector.py:321-332 | quality is low exactly when no contributor is official, and high exactly when at least two are |
| ApiCollector.ContributionsPositive | api_data_collector.py:277-282 | the smallest collected price is positive, so the spread percentage never divides by zero |
| ApiCollector.CombineApiData | api_data_collector.py:260-301 | the collecting loop and the consensus fill-in compute the combined record |
| ApiCollector.NoContributor | api_data_collector.py:262-284 | the analysis stays empty exactly when no source contributes, and then every figure stays 0; sources_count counts every entry |
| ApiCollector.ConsensusFigures | api_data_collector.py:284-299 | the consensus lies between the lowest and highest price; minimum bid ≤ appraisal ≤ consensus as floors of 0.7 and 0.9 of it; confidence is min(100, 25·contributors); the spread is non-negative; recommendation and risk follow their bands |
| ApiCollector.ThreeSourceScenario | api_data_collector.py:260-332 | prices of 240M, 260M and 250M (one through appraisalPrice) give 250M, 225M and 175M at confidence 75, mid-price band, low risk and high quality |
| ApiCollector.DataQuality | api_data_collector.py:321-332 | defines the quality grade by the number of official sources (two or more, one, none); DataQualityBands states both directions |
| ApiCollector.CombineApi | api_data_collector.py:260-301 | defines what combine_api_data returns; NoContributor and ConsensusFigures state its cases and figures and CombineApiData computes it |
| AdvancedCrawler.AdvancedPrice | advanced_crawler.py:355-362 | a dict source contributes its marketPrice whenever that key is present, even at 0, else its appraisalPrice when present; marketPrice wins when both are present |
| AdvancedCrawler.InclusionRulesCompared | advanced_crawler.py:355-362 | every source the API collector counts is counted here too, at the same price when marketPrice is positive; a present zero marketPrice is counted here where the API collector falls through to appraisalPrice |
| AdvancedCrawler.GuardedVariation | advanced_crawler.py:375 | the spread percentage, and 0.0 when the smallest price is 0 |
| AdvancedCrawler.CombineAndAnalyzeData | advanced_crawler.py:340-380 | the collecting loop and the consensus fill-in compute the guarded combined record |
| AdvancedCrawler.AsWrittenFailsOnZero | advanced_crawler.py:340-380 | with non-negative prices the unguarded combiner raises exactly when some source contributes a price of 0, and otherwise agrees with the guarded one |
| AdvancedCrawler.ZeroMarketPriceRaises | advanced_crawler.py:375 | a court record whose price cell held no digits makes the unguarded combiner raise a division error |
| AdvancedCrawler.CombinedFigures | advanced_crawler.py:342-378 | sources_count counts every entry; with no contributor every figure stays 0; otherwise the consensus lies between the extreme prices, minimum bid ≤ appraisal ≤ consensus, confidence is min(100, 25·contributors), the spread is non-negative and no quality grade is given |
| AdvancedCrawler.ParsePriceProperties | advanced_crawler.py:400-408 | the digits of a text read as one number: a numeral reads back as its value, non-digits never matter, and a text without digits gives 0 |
| AdvancedCrawler.CrawlSourceNames | advanced_crawler.py:232-270 | the sources hold court_auction, richgo and other_sites, each exactly when its provider produced something, richgo only with a location |
| AdvancedCrawler.CrawlSourceOrder | advanced_crawler.py:241-265 | court_auction comes first when present, other_sites comes last and never yields a price, and there are at most three entries |
| AdvancedCrawler.SourceParts | advanced_crawler.py:241-265 | the sources are the court entry, then the richgo entry, then the other-sites entry, each present exactly when its provider produced something |
| AdvancedCrawler.RichgoNeedsLocation | advanced_crawler.py:251-258 | without a truthy location the result does not depend on the richgo provider |
| AdvancedCrawler.CombineAsWritten | advanced_crawler.py:340-380 | defines combine_and_analyze_data as written, raising ZeroDivisionError when the smallest collected price is 0; AsWrittenFailsOnZero and ZeroMarketPriceRaises state when |
| AdvancedCrawler.Combine | advanced_crawler.py:340-380 | defines the combiner with the zero guard; CombinedFigures states its counts and bounds and CombineAndAnalyzeData computes it |
| AdvancedCrawler.ParsePrice | advanced_crawler.py:400-408 | defines parse_price: the text's digits read as one number, 0 without digits; ParsePriceProperties states it |
| AdvancedCrawler.CrawledSources | advanced_crawler.py:241-265 | defines the sources dict: the court entry when found, richgo only with a truthy location, other_sites last; CrawlSourceOrder and SourceParts state it |
| AdvancedCrawler.CrawlMultipleSources | advanced_crawler.py:232-270 | defines the corrected crawl_multiple_sources: the sources dict and the zero-guarded combination of exactly its entries; CrawlSourceNames states which names appear, and CrawlMultipleSourcesAsWritten is the code as written |
| AdvancedCrawler.CrawlMultipleSourcesAsWritten | advanced_crawler.py:232-270 | defines crawl_multiple_sources as written: the unguarded combination at :268, so ZeroDivisionError leaves the crawl; CrawlAsWrittenFailsOnZero states when |
| AdvancedCrawler.CrawlAsWrittenFailsOnZero | advanced_crawler.py:232-270 | with non-negative prices, the crawl as written raises exactly when an entry of the sources dict contributes 0, and otherwise returns the corrected crawl's result |
| AdvancedCrawler.CourtZeroPriceCrawlRaises | advanced_crawler.py:146 | a court record whose price cell has no digits (marketPrice int(0*1.1) = 0) makes the crawl as written raise without a location, while the corrected crawl returns an analysis |
| CourtCrawler.ParseCaseNumberSpec | real_court_auction_crawler.py:413-437 | a case number parses exactly when it starts with four digits, 타경 and a digit; the parts are the year, the type and the whole digit run after it, the court code is year plus type, and the parts spell the start of the text |
| CourtCrawler.PlainPriceAgrees | real_court_auction_crawler.py:439-462 | on text without unit characters the price is its digits read as one number, 0 without digits, and the as-written reading agrees |
| CourtCrawler.SingleUnitAgrees | real_court_auction_crawler.py:445-458 | with one unit after the digits ("5,000만원", "2억") the unit-aware reading and the as-written reading agree |
| CourtCrawler.TallySingleUnit | real_court_auction_crawler.py:445-458 | digits followed by one unit character read as the digits times that unit's value |
| CourtCrawler.MixedUnitsAsWritten | real_court_auction_crawler.py:439-458 | as written, "1억 5000만" reads as 1,500,000,000,000 and "3천만" as 30,000: the digit groups run together and one unit scales them all |
| CourtCrawler.MixedUnitsRead | real_court_auction_crawler.py:445-458 | read unit by unit, "1억 5000만" is 150,000,000 and "3천만" is 30,000,000 |
| CourtCrawler.SiteRecord | real_court_auction_crawler.py:206-325 | a site hit of 부동산114, 직방 or 네이버 carries the price parse_price reads as written as its market price, with appraisal and minimum bid the floors of 0.9 and 0.7 of it, so minimum ≤ appraisal ≤ market |
| CourtCrawler.Consulted | real_court_auction_crawler.py:39-66 | the chain never calls more providers than it has |
| CourtCrawler.FirstSuccessSpec | real_court_auction_crawler.py:39-66 | after providers that all found nothing, the first provider with a record supplies the answer after exactly that many calls, and one that raises ends the chain with None |
| CourtCrawler.FirstSuccessNone | real_court_auction_crawler.py:39-66 | the chain gives None exactly when no provider it called found a record |
| CourtCrawler.LaterProvidersUnused | real_court_auction_crawler.py:39-66 | providers after the one that ends the chain are never called: replacing them changes nothing |
| CourtCrawler.DirectHitWins | real_court_auction_crawler.py:41-45 | a record from the direct court site is returned whatever the other providers would give |
| CourtCrawler.SitesLast | real_court_auction_crawler.py:41-60 | when the three court providers find nothing, the answer is what the real-estate sites chain gives |
| CourtCrawler.AllMissIsNone | real_court_auction_crawler.py:39-66 | no record from any court step and none from the sites gives None |
| CourtCrawler.KindsOf | real_court_auction_crawler.py:340-357 | each header is classified on its own, one kind per header |
| CourtCrawler.ScanHeadersColumn | real_court_auction_crawler.py:348-357 | the header loop leaves a column as it was when no later header has its kind, and otherwise sets it to the last header of that kind |
| CourtCrawler.HeaderColumnsLast | real_court_auction_crawler.py:342-357 | each column index is that of the last header of its kind, and absent exactly when no header has that kind |
| CourtCrawler.HeaderCellColumns | real_court_auction_crawler.py:348-357 | the header loop computes the column indices |
| CourtCrawler.MaxColumn | real_court_auction_crawler.py:361 | the largest column index that is present and non-zero, absent exactly when no column is kept (where Python's max raises) |
| CourtCrawler.RowRecordSpec | real_court_auction_crawler.py:368-404 | a row yields a record exactly when its appraisal or minimum bid is positive; a missing market price becomes ⌊1.1·appraisal⌋ and a missing minimum bid ⌊0.7·appraisal⌋; found values are kept as parse_price reads them as written |
| CourtCrawler.ScanDataRows | real_court_auction_crawler.py:359-404 | the row loop over the data rows returns the first record (its prices read by parse_price as written), a failure, or nothing |
| CourtCrawler.ExtractAuctionDataFromHtml | real_court_auction_crawler.py:327-411 | the table, header and row loops compute the page's record, with its prices read by parse_price as written |
| CourtCrawler.ScanRowsFound | real_court_auction_crawler.py:359-404 | a record comes from a later data row whose text contains the case number |
| CourtCrawler.ScanTablesFound | real_court_auction_crawler.py:333-404 | a record comes from a data row of some table, read with that table's header columns, whose text contains the case number |
| CourtCrawler.ExtractedRowNamesCase | real_court_auction_crawler.py:366-367 | only rows that name the case number are ever read |
| CourtCrawler.UnkeptColumnsEndPage | real_court_auction_crawler.py:333-362 | the first table with data rows and no kept column ends the page with None whatever later tables hold |
| CourtCrawler.ScanTablesSkip | real_court_auction_crawler.py:335-337 | tables with fewer than two rows are skipped |
| CourtCrawler.AppraisalAtFirstColumn | real_court_auction_crawler.py:348-362 | a header row of 감정가 and 비고 puts the appraisal at column 0, which max(filter(None, ...)) does not keep |
| CourtCrawler.ParsePriceAsWritten | real_court_auction_crawler.py:439-462 | defines parse_price as written: every digit of the text read as one number, times the first unit the code checks for (억, then 만, then 천), and 0 without digits; the record builders use it, and MixedUnitsAsWritten shows where it goes wrong |
| CourtCrawler.ParsePrice | real_court_auction_crawler.py:445-458 | defines the intended reading, each digit group scaled by the unit after it; PlainPriceAgrees and SingleUnitAgrees show it agrees with the written one on unit-free and single-unit text, MixedUnitsRead where they part |
| CourtCrawler.FirstSuccess | real_court_auction_crawler.py:39-66 | defines the first-success chain: providers in order, the first record wins, an exception ends it with None; FirstSuccessSpec and FirstSuccessNone state it |
| CourtCrawler.GetRealAuctionData | real_court_auction_crawler.py:39-66 | defines get_real_auction_data as the chain direct site, supreme court, regional court, then the real-estate sites; DirectHitWins, SitesLast and AllMissIsNone state its order |
| CourtCrawler.CrawlRealEstateSites | real_court_auction_crawler.py:182-204 | defines crawl_real_estate_sites as the chain 부동산114, 직방, 네이버; SitesLast shows the outer chain returns it once the courts miss |
| CourtCrawler.KindOf | real_court_auction_crawler.py:340-357 | defines a stripped header's role by the first keyword group it contains (appraisal, minimum, price, location); KindsOf states it per header |
| CourtCrawler.Classify | real_court_auction_crawler.py:348-357 | defines one step of the header loop: the header's kind takes its index, other headers change nothing; ScanHeadersColumn states the effect |
| CourtCrawler.ScanHeaders | real_court_auction_crawler.py:348-357 | defines the header loop over the remaining headers; HeaderColumnsLast shows each column is the last header of its kind |
| CourtCrawler.CellPrice | real_court_auction_crawler.py:376-382 | defines a price cell's value: parse_price as written on a column inside the row, else 0 |
| CourtCrawler.RowRecord | real_court_auction_crawler.py:368-404 | defines the record a matching row yields; RowRecordSpec states when it exists and how the missing prices are derived |
| CourtCrawler.ScanRows | real_court_auction_crawler.py:359-404 | defines the row loop: rows that are too short or do not name the case number are skipped, the first row with a record answers, and no kept column fails the page; ScanRowsFound and ExtractedRowNamesCase state it |
| CourtCrawler.ScanTables | real_court_auction_crawler.py:333-404 | defines the table loop: tables with fewer than two rows are skipped and the first hit or failure ends the page; ScanTablesFound and ScanTablesSkip state it |
| CourtCrawler.ExtractAuctionData | real_court_auction_crawler.py:327-411 | defines the page's record as the table scan's hit, None on a miss or a failure; ExtractAuctionDataFromHtml computes it |
| CaseNumber.LeadingDigits | auction_crawler.py:48 | the greedy `\d+`: a digit prefix of the text that stops at the first non-digit |
| CaseNumber.Parse | auction_crawler.py:44-57 | a parsed case number is well formed and spells the start of the text |
| CaseNumber.ParseAccepts | auction_crawler.py:48-57 | the pattern matches exactly the texts that start with four digits, 타경 and a digit, and the serial takes every digit that follows |
| CaseNumber.ParseText | auction_crawler.py:48-57 | a well-formed case number followed by anything that does not continue its serial reads back as itself |
| CaseNumber.LeadingDigitsOf | auction_crawler.py:48 | a digit run followed by a non-digit is exactly what the greedy serial takes |
| CaseNumber.ParseExamples | auction_crawler.py:46-57 | "2024타경12345" reads as year 2024 and serial 12345, and "2023타경7 (1)" as 2023 and 7 |
| CaseNumber.ParseRejects | auction_crawler.py:48-57 | a two-digit year and a missing serial are both refused |
| AuctionCrawler.SyntheticFigures | auction_crawler.py:108-176 | the generated record names the case; its market price lies in [2억, 2.99억] in whole millions, appraisal is 0.9 of it, minimum bid the floor of 0.7 of the appraisal, failures are the serial mod 4, 유찰 exactly from the third failure, and region, type and court come from their lists |
| AuctionCrawler.SyntheticPrices | auction_crawler.py:120-143 | the price figures alone: range, whole millions, exact 0.9 appraisal and 0 < minimum < appraisal < market |
| AuctionCrawler.SyntheticChoices | auction_crawler.py:124-168 | the choices alone: failures, status and the listed region, type and court |
| AuctionCrawler.SyntheticShift | auction_crawler.py:117-168 | serials 600 apart give the same record |
| AuctionCrawler.SyntheticPeriodic | auction_crawler.py:117-168 | the record depends on the serial only through its residue modulo 600 |
| AuctionCrawler.PyIntDigits | auction_crawler.py:286 | int() of a run of digits is its value |
| AuctionCrawler.GetAuctionData | auction_crawler.py:24-42 | the corrected get_auction_data, whose simulation fallback never raises: the record names a prefix of the case number, and a simulation record names the whole case number; GetAuctionDataAsWritten is the code as written |
| AuctionCrawler.MalformedFallsBack | auction_crawler.py:30-42 | a case number that does not parse gives the simulation record |
| AuctionCrawler.WellFormedIsSynthetic | auction_crawler.py:59-106 | a well-formed case number gives the generated record when the date arithmetic succeeds, and the written code cannot raise for it |
| AuctionCrawler.AsWrittenAgrees | auction_crawler.py:24-42 | wherever the written code returns a record it is the corrected one |
| AuctionCrawler.NonNumericYearRaises | auction_crawler.py:281-286 | "abcd타경1" makes the written code raise out of its handler, where the corrected one gives the recent simulation record |
| AuctionCrawler.SimulationYears | auction_crawler.py:281-295 | a year of 2024 or later gives 250M/243M/170.1M, an earlier one 220M/210M/147M |
| AuctionCrawler.SearchAuctions | auction_crawler.py:307-329 | five listings, the i-th built from its index |
| AuctionCrawler.SearchListingSpec | auction_crawler.py:313-327 | the i-th listing's case number reads back as 2024타경(10000+i), it has failed i times, prices step by 10,000,000 from one listing to the next, and the court defaults to 서울중앙지방법원 |
| AuctionCrawler.ListingCaseParses | auction_crawler.py:317 | 2024타경 followed by a digit run reads back as year 2024 with that serial |
| AuctionCrawler.SyntheticOf | auction_crawler.py:108-176 | defines the generated record chosen by the serial; SyntheticFigures, SyntheticPrices and SyntheticChoices state its figures and SyntheticPeriodic its period |
| AuctionCrawler.PyInt | auction_crawler.py:286 | defines Python int() on a short text (whitespace, sign, digits with single underscores), raising ValueError otherwise; PyIntDigits reads digit runs |
| AuctionCrawler.SimulationDataAsWritten | auction_crawler.py:281-305 | defines get_simulation_data as written, whose int() of the first four characters can raise; NonNumericYearRaises exhibits it |
| AuctionCrawler.SimulationData | auction_crawler.py:281-305 | defines the simulation record with a non-numeric year taken as 2024; SimulationYears states its two year bands |
| AuctionCrawler.GetAuctionDataAsWritten | auction_crawler.py:24-42 | defines get_auction_data as written, through the raising simulation fallback; AsWrittenAgrees shows it agrees with GetAuctionData wherever it returns |
| AuctionCrawler.SearchListing | auction_crawler.py:313-327 | defines the i-th search listing; SearchListingSpec states its case number, failures and price steps |
| BidCalculator.FeeRate | script.js:2297-2325 | the summed fee rate of every auction type, the general rates for an unknown one, lies strictly between 0 and 1 |
| BidCalculator.FinalBidPrice | script.js:38-90 | the unrounded bid is the larger of the expected price less additional costs, fees and target profit, and 30% of the market price |
| BidCalculator.CalculateRecommendedBidPrice | script.js:38-90 | the recommended bid is the unrounded bid rounded to the nearest integer, and the profit margin is the target profit as a percentage of the unrounded bid |
| BidCalculator.ProfitMargin | script.js:88 | the margin is 100·profit/bid for a non-zero bid, NaN for 0/0 and infinite for any other zero bid, and for a positive bid it has the sign of the profit |
| BidCalculator.ProfitMarginFinite | script.js:38-90 | with positive market price and sale-price rate the margin is finite and has the sign of the target profit rate |
| BidCalculator.ZeroMarketMarginNaN | script.js:68-88 | a market price of 0 with no extra costs gives a bid of 0 and a NaN margin |
| BidCalculator.TargetProfit | script.js:61 | defines the target profit as that share of the expected auction price; ProfitMarginFinite states its sign |
| BidCalculator.RecommendedBidMonotone | script.js:48-70 | a higher target profit never raises the bid |
| BidCalculator.SimpleBaseMonotone | script.js:2426-2434 | the base probability never falls as the price ratio rises, and stays in [0.1, 0.98] |
| BidCalculator.SimpleCompetitorMonotone | script.js:2437-2445 | the competitor factor never rises with more competitors, and stays in [0.1, 0.95] |
| BidCalculator.WinProbability | script.js:2395-2423 | the win probability is clamped to [0.01, 0.99] |
| BidCalculator.ClampedProduct | script.js:2419-2422 | the product of the seven factors, clamped to [0.01, 0.99] |
| BidCalculator.MinimumBidFactorMonotone | script.js:2457-2464 | the minimum-bid factor is positive and never falls as the bid ratio rises |
| BidCalculator.AppraisalFactorMonotone | script.js:2467-2474 | the appraisal factor is positive and never falls as the bid ratio rises |
| BidCalculator.WinProbabilityMonotone | script.js:2395-2474 | with all else fixed and non-negative weights, a larger bid never lowers the win probability |
| BidCalculator.ProductMonotone | script.js:2419-2422 | the clamped product grows when three of its non-negative factors grow |
| BidCalculator.AdvancedWinProbability | script.js:3455-3535 | the advanced probability lies in [0.1, 0.95], and is exactly 0.5 when the price ratio is missing or NaN |
| BidCalculator.AdvancedProduct | script.js:3497-3535 | the product of the four advanced factors, clamped to [0.1, 0.95] |
| BidCalculator.AdvancedMonotone | script.js:3475-3535 | a higher price ratio never lowers the advanced probability |
| BidCalculator.MarketFactor | script.js:2616-2630 | the market factor lies in [0.1, 2.0] unless the fractional power is NaN, which only happens outside three or four competitors |
| BidCalculator.UrgencyFactor | script.js:2673-2686 | the urgency factor lies in [0.5, 1.5] under the same condition |
| BidCalculator.FactorsKeepWeight | script.js:2616-2686 | for three or four competitors a weight already in range is used unchanged and never NaN |
| BidCalculator.BehaviorFactor | script.js:2633-2670 | the behaviour factor is clamped to [0.2, 2.0] |
| BidCalculator.BehaviorFailedMonotone | script.js:2666-2669 | more failed rounds never raise the behaviour factor |
| BidCalculator.RiskAdjustedProfit | script.js:2933-2949 | with a non-zero total cost the adjusted profit lies in [-50, 200]; it is NaN exactly when cost and expected return are both zero |
| BidCalculator.FailureFactor | script.js:3200-3205 | the failed-round factor lies in [0.7, 1.0] and is 1 without a failed round |
| BidCalculator.ApplyMarketAdjustments | script.js:3188-3244 | the bid is scaled by the failure factor, then by 0.95 when it exceeds 90% of the market price |
| BidCalculator.MarketAdjustmentBounds | script.js:3199-3231 | a positive bid is only lowered, never below 0.7·0.95 of itself, and is unchanged with no failed round and a bid at most 90% of a positive market price |
| BidCalculator.ApplyFinalConstraints | script.js:3247-3272 | the final bid never exceeds 98% of the appraisal or twice the minimum bid, equals max(bid, 1.05·minimum bid) when that is under both caps, and is always one of the four candidate figures |
| BidCalculator.AcquisitionTaxRate | script.js:2697-2712 | the acquisition-tax rate by property type, home count and area, as the rate table gives it |
| BidCalculator.CostsSpec | script.js:2689-2809 | deposit and balance make up the bid, the deposit is 10%, and the total is the bid plus additional costs made of 1.55 times the acquisition tax, 0.74% of the bid, the stamp duties and the legal fee |
| BidCalculator.CostsMonotone | script.js:2689-2809 | for the same property a higher bid never costs less |
| BidCalculator.OverallBidScore | script.js:3645-3677 | the score lies in [85, 100] |
| BidCalculator.OverallBidScoreExtremes | script.js:3645-3677 | unreadable figures score 85, ideal figures reach the cap of 100, and a middling analysis scores 90 |
| BidCalculator.AdditionalCosts | script.js:93-112 | defines calculateAdditionalCosts as the passed extras each 0 when missing, plus a 1.5% acquisition tax on the expected price; it is one of the deductions FinalBidPrice makes |
| BidCalculator.SimpleBaseProbability | script.js:2426-2434 | defines the base probability bands of the price ratio; SimpleBaseMonotone states its order and range |
| BidCalculator.SimpleCompetitorFactor | script.js:2437-2445 | defines the competitor factor bands; SimpleCompetitorMonotone states its order and range |
| BidCalculator.RiskPremium | script.js:2952-2977 | the premium plus two points per failed round lies in [-3, 15]: at most 5 for a win probability of 0.6 or more, at least 7 below 0.3 |
| BidCalculator.VolatilityAdjustment | script.js:2980-2993 | the adjustment lies in [0, 22.5] for a probability in [0, 1], is 0 for a certain win, and is 15 points of uncertainty in a normal market |
| BidCalculator.DetailedAuctionCosts | script.js:2689-2809 | defines calculateDetailedAuctionCosts' breakdown; CostsSpec states how its lines make up the total and CostsMonotone its order |
| AuctionCalculator.RecommendedBidPrice | bidcal/bidcal/Managers/AuctionCalculator.swift:67-92 | the recommended bid is the larger of the expected price less 1.5% tax, 3% fees, the target profit and the renovation, and 30% of the market price |
| AuctionCalculator.RecommendedBidMonotone | bidcal/bidcal/Managers/AuctionCalculator.swift:67-92 | a higher target profit or renovation cost never raises the recommended bid |
| AuctionCalculator.SwiftMin | bidcal/bidcal/Managers/AuctionCalculator.swift:103 | Swift's min with a finite bound: never above the bound, the smaller of two finite values, NaN kept as NaN |
| AuctionCalculator.SwiftMax | bidcal/bidcal/Managers/AuctionCalculator.swift:114 | Swift's max with a finite floor: never below the floor, the larger of two finite values, and the floor for NaN |
| AuctionCalculator.WinningProbability | bidcal/bidcal/Managers/AuctionCalculator.swift:95-115 | the probability lies in [10, 95]: half the bid-to-recommendation ratio in percent capped at 90, minus 3 per competitor and plus 5 per failed round, with the division by a zero recommendation followed through |
| AuctionCalculator.Base | bidcal/bidcal/Managers/AuctionCalculator.swift:103 | the scaled ratio capped at 90 |
| AuctionCalculator.WinningProbabilityMonotone | bidcal/bidcal/Managers/AuctionCalculator.swift:95-115 | more competitors, fewer failed rounds or a lower bid against a positive recommendation never raise the probability |
| AuctionCalculator.NaNRatioGivesFloor | bidcal/bidcal/Managers/AuctionCalculator.swift:102-114 | a zero bid against a zero recommendation gives a NaN ratio, which Swift's max turns into the 10% floor |
| AuctionCalculator.DetailedCostsOf | bidcal/bidcal/Managers/AuctionCalculator.swift:118-172 | deposit and balance make up the bid, both surtaxes are a tenth of the acquisition tax, and the total is the sum of the cost lines, 6.3% of the bid plus the renovation |
| AuctionCalculator.DetailedCostsMonotone | bidcal/bidcal/Managers/AuctionCalculator.swift:118-172 | a higher bid never lowers the total cost |
| AuctionCalculator.SalePriceRate | bidcal/bidcal/Managers/AuctionCalculator.swift:174-180 | the rate is positive: 80 without a region, the loaded rate when positive, else 80 |
| AuctionCalculator.Percentage | bidcal/bidcal/Managers/AuctionCalculator.swift:41-45 | a ratio in percent, exact whenever the divisor is not zero |
| AuctionCalculator.RunSimulation | bidcal/bidcal/Managers/AuctionCalculator.swift:10-64 | the result ties every figure to the property: the recommended bid from the region's rate, a probability in [10, 95], profit plus bid plus costs equal to the market price, costs 6.3% of the bid plus renovation, deposit plus balance equal to the bid, and the three ratios in percent (appraisal 0 without an appraisal price) |
| AuctionCalculator.NoProfitAtMarketPrice | bidcal/bidcal/Managers/AuctionCalculator.swift:40-41 | bidding the whole market price never shows a profit when the costs are not negative |
| Inspection.Score | bidcal/bidcal/Views/InspectionView.swift:241-276 | the score lies in [0, 100]: the raw sum when that is at most 100, else 100 |
| Inspection.ScoredItems | bidcal/bidcal/Views/InspectionView.swift:244-273 | twenty-one items are worth five points each |
| Inspection.Answered | bidcal/bidcal/Views/InspectionView.swift:244-273 | no more items are answered than there are |
| Inspection.RawScoreCounts | bidcal/bidcal/Views/InspectionView.swift:244-273 | the raw score is five per answered item plus the building-age points |
| Inspection.AnsweredMonotone | bidcal/bidcal/Views/InspectionView.swift:244-273 | answering every item another list answers, and maybe more, never counts fewer |
| Inspection.ScoreMonotone | bidcal/bidcal/Views/InspectionView.swift:241-276 | answering more items with the same building age never lowers the score |
| Inspection.ScoreExtremes | bidcal/bidcal/Views/InspectionView.swift:10-35 | a fully answered form with building age 상 sums to 115 and is capped to 100; the initial form scores only the 5 points of its default age 중 |
| Inspection.Evaluation | bidcal/bidcal/Views/InspectionView.swift:286-293 | the evaluation is one of the six labels |
| Inspection.EvaluationMonotone | bidcal/bidcal/Views/InspectionView.swift:286-293 | a higher score never gets a worse label, and each label starts at a multiple of ten from 50 |
| PropertyModel.Position | bidcal/bidcal/Models/AuctionProperty.swift:67-87 | every kind but Other has its place in the classifier's order |
| PropertyModel.From | bidcal/bidcal/Models/AuctionProperty.swift:67-87 | Other exactly when the lower-cased text names no kind; otherwise a kind the text names, and no kind checked before it is named |
| PropertyModel.HangulText | bidcal/bidcal/Models/AuctionProperty.swift:68 | a Hangul text is its own lower-case form and contains no English keyword |
| PropertyModel.FromHangul | bidcal/bidcal/Models/AuctionProperty.swift:67-87 | a Hangul text is classified as the first kind, in the order the code checks them, whose Korean name it contains |
| PropertyModel.FromRawValue | bidcal/bidcal/Models/AuctionProperty.swift:43-87 | classifying a kind's own raw value gives that kind back |
| PropertyModel.OfficetelBeforeOffice | bidcal/bidcal/Models/AuctionProperty.swift:72-81 | "Officetel" contains "office" but is an officetel, because that kind is checked first |
| PropertyModel.AllCourtsListed | bidcal/bidcal/Models/AuctionProperty.swift:108-164 | every court is in the declaration-order list |
| PropertyModel.AllCourtsDistinct | bidcal/bidcal/Models/AuctionProperty.swift:108-164 | the list holds 28 courts, each once |
| PropertyModel.CourtIndexAt | bidcal/bidcal/Models/AuctionProperty.swift:108-164 | the court at position i has index i |
| PropertyModel.CourtIndexInverse | bidcal/bidcal/Models/AuctionProperty.swift:108-164 | a court's index is where the list holds it |
| PropertyModel.FlattenGrouped | bidcal/bidcal/Models/AuctionProperty.swift:166-183 | the grouping by region lists the courts in declaration order, so each court appears in exactly one group, once |
| Csv.DoubleQuotes | excel-data-manager.js:170 | a field without quotes is left as it is |
| Csv.DoubleQuotesChars | excel-data-manager.js:170 | doubling the quotes neither adds nor removes a kind of character |
| Csv.EscapeCsv | excel-data-manager.js:162-173 | a missing field becomes empty, a field with a comma, quote or line break is wrapped in quotes, any other field is unchanged |
| Csv.EscapeChars | excel-data-manager.js:162-173 | escaping keeps every character of the field and adds a line break only where the field had one |
| Csv.EscapeAll | excel-data-manager.js:143-153 | one escaped field per field |
| Csv.ParseFields | excel-data-manager.js:351-379 | a line always has at least one field |
| Csv.ParseCsvLine | excel-data-manager.js:351-379 | the character loop with its quote state computes the fields of the line |
| Csv.ParseWithoutQuotes | excel-data-manager.js:351-379 | a line without quotes splits at every comma |
| Csv.ScanQuoted | excel-data-manager.js:358-366 | a quoted body with doubled quotes followed by its closing quote reads back as the original field |
| Csv.ScanField | excel-data-manager.js:162-173 | an escaped field followed by a comma or the end of the line reads back unchanged |
| Csv.ParseEscapedLine | excel-data-manager.js:143-155 | parsing the comma-join of escaped fields gives back exactly those fields, commas, quotes and line breaks included |
| Csv.ExportFields | excel-data-manager.js:143-153 | the nine exported fields in column order, each the property's value or empty |
| Csv.ConvertToCsv | excel-data-manager.js:122-159 | the loop builds the header line, then one line per property, each ended by a line break |
| Csv.RowsTextSnoc | excel-data-manager.js:142-155 | appending a property appends exactly its line |
| Csv.RowLineSingle | excel-data-manager.js:143-154 | a row without line breaks in its fields is a single line |
| Csv.SplitRows | excel-data-manager.js:142-155 | split at line breaks, the rows of single-line properties are one line each followed by an empty tail |
| Csv.NonBlankLines | excel-data-manager.js:311 | the kept lines are no more than the lines and none is blank |
| Csv.NonBlankKeeps | excel-data-manager.js:311 | non-blank lines followed by an empty tail keep all but the tail |
| Csv.PropertyFromColumns | excel-data-manager.js:382-437 | a property is made exactly when the assigned object has a case number or a name, and then it is that object |
| Csv.CreatePropertyFromCsv | excel-data-manager.js:382-437 | the loop over the headers computes the property or nothing |
| Csv.AssignedHeaders | excel-data-manager.js:386-420 | the export headers, in order, assign each exported field its own column |
| Csv.ImportRows | excel-data-manager.js:323-331 | no more properties than lines, each with a case number or a name |
| Csv.Import | excel-data-manager.js:307-347 | fewer than two non-blank lines is refused; otherwise the properties are between one and the number of lines, each with a key field |
| Csv.ParseCsv | excel-data-manager.js:307-347 | parseCSV computes the import result |
| Csv.ImportLines | excel-data-manager.js:323-331 | the loop over the data lines collects exactly the rows that import |
| Csv.ImportLine | excel-data-manager.js:324-330 | one data line: skipped when its first field is blank, else the property it makes |
| Csv.HeaderLineParses | excel-data-manager.js:139 | the header line reads back as the headers |
| Csv.ImportExportedRow | excel-data-manager.js:143-155 | a property with a non-blank case number exports a row that imports back as its nine fields |
| Csv.ExportImportRoundTrip | excel-data-manager.js:122-159 | export then import gives back every property with a non-blank case number and single-line fields, in order, with its nine exported fields; empty dates become the import time |
| Csv.ExportedLines | excel-data-manager.js:139-155 | the non-blank lines of the export are the header line and one row per property |
| Csv.ImportedFields | excel-data-manager.js:386-420 | every exported field but the two dates comes back as it was, and the dates too when they were set |
| Csv.IsValidFileType | excel-data-manager.js:257-269 | a file is accepted exactly when its type is one of the three accepted types or its lower-cased name ends in .csv, .xls or .xlsx |
| Csv.SuffixAnyCase | excel-data-manager.js:265-268 | a name ending in .XLSX is accepted with any type |
| Csv.CsvText | excel-data-manager.js:122-159 | defines the exported text as the header line and one line per property; ConvertToCsv computes it and ExportImportRoundTrip reads it back |
| Csv.Put | excel-data-manager.js:386-420 | defines one header's assignment, the two dates replaced by the time when empty and unknown headers ignored; AssignedHeaders and ImportedFields state the effect |
| Csv.Assigned | excel-data-manager.js:386-420 | defines the object after the headers are walked in order; AssignedHeaders states it for the export headers |
| Csv.ImportRow | excel-data-manager.js:324-330 | defines a data line's import: a blank first field skips it, otherwise the property it makes; ImportLine states it |
| PropertyRecord.DetailsOf | storage-manager.js:147-153 | each of the four sections is the one handed in, or {} when missing, stamped with the save time |
| PropertyRecord.NewEntry | storage-manager.js:63-68 | a new entry has the supplied fields plus id and both time stamps; a supplied id wins over the generated one, the time stamps always win over supplied ones |
| PropertyRecord.Merge | storage-manager.js:84-88 | the update's fields win, the entry's other fields stay, updatedAt becomes the time, and the saved sections are untouched |
| PropertyRecord.MergeIdempotent | storage-manager.js:84-88 | merging the same update twice is merging it once |
| PropertyRecord.Remove | storage-manager.js:100 | splice(index, 1): one element fewer, the earlier ones in place, the later ones moved down by one |
| PropertyRecord.RemoveInsert | storage-manager.js:100 | putting the removed element back at its index gives the list back |
| PropertyRecord.RemoveMultiset | storage-manager.js:100 | removing takes exactly that one element out |
| PropertyRecord.RemoveAppended | storage-manager.js:61-75 | deleting the element just appended gives the list back |
| StorageManager.Snapshot | storage-manager.js:39-49 | saving writes every key of the state |
| StorageManager.NonEmpty | storage-manager.js:22 | `x \|\| null` on a text keeps it unless it is empty |
| StorageManager.LoadDataAsWritten | storage-manager.js:14-34 | a missing or unreadable key gives the empty state; otherwise the stored list and time, and a stored index of 0 read as -1 |
| StorageManager.LoadData | storage-manager.js:14-34 | the same with the stored index kept, -1 only when it is missing |
| StorageManager.SaveLoadRoundTrip | storage-manager.js:14-49 | reading back what was saved gives the saved state |
| StorageManager.FirstSelectionLostAsWritten | storage-manager.js:21 | as written, a saved selection of the first property comes back as no selection |
| StorageManager.LoadAgreesAwayFromZero | storage-manager.js:21 | away from a stored index of 0 the written and the corrected load agree |
| StorageManager.IndexAfterDelete | storage-manager.js:103-108 | deleting the selected entry clears the selection, deleting an earlier one moves it down by one, a later one leaves it |
| StorageManager.DeleteKeepsSelection | storage-manager.js:97-112 | a selection other than the deleted entry still selects the same property afterwards; deleting the selected one leaves nothing selected |
| StorageManager.Restored | storage-manager.js:213-217 | importData installs the object's list, its index or -1 when missing, and the import time |
| StorageManager.ExportImportRoundTrip | storage-manager.js:187-217 | importing an exported state gives it back with the import's time stamp |
| StorageManager.StorageManager.constructor | storage-manager.js:6-9 | a new manager holds what loadData as written reads from the key, a stored first-property selection becoming no selection |
| StorageManager.StorageManager.SaveData | storage-manager.js:39-49 | lastSaved is stamped even when the write fails, and the key holds the state exactly when the write succeeds |
| StorageManager.StorageManager.AddProperty | storage-manager.js:61-75 | exactly one new entry is appended, the earlier ones and the selection unchanged; null when the write fails |
| StorageManager.StorageManager.UpdateProperty | storage-manager.js:80-92 | false and no change for a missing index; otherwise only that entry is merged with the update |
| StorageManager.StorageManager.DeleteProperty | storage-manager.js:97-112 | false and no change for a missing index; otherwise the entry is spliced out, the selection follows its property, and deleting the selected one clears it |
| StorageManager.StorageManager.SetCurrentPropertyIndex | storage-manager.js:117-120 | any index is taken and saved |
| StorageManager.StorageManager.GetCurrentProperty | storage-manager.js:132-138 | the selected entry, or null exactly when the index is negative or names no entry |
| StorageManager.StorageManager.SavePropertyData | storage-manager.js:143-158 | false and no change for a missing index; otherwise the four sections are stored on that entry only and read back by loadPropertyData |
| StorageManager.StorageManager.LoadPropertyData | storage-manager.js:163-170 | the entry's sections, or null exactly when the entry or its sections are missing |
| StorageManager.StorageManager.ClearAllData | storage-manager.js:175-182 | no properties and nothing selected, then saved |
| StorageManager.StorageManager.ExportData | storage-manager.js:187-189 | the exported object imports back as the current state |
| StorageManager.StorageManager.ImportData | storage-manager.js:194-261 | true exactly for non-blank text that parses to an object and a successful write; then the restored state is installed and written, otherwise state and key stay as they were |
| StorageManager.ReloadKeepsState | storage-manager.js:6-49 | a state saved by one manager and read back by loadData as written keeps its properties and save time, and its selection unless that is the first property, which comes back as none; the intended load keeps everything |
| SimpleStorage.SimpleStore.constructor | simple-storage.js:7-10 | the store reads the one key it keeps its object under |
| SimpleStorage.SimpleStore.EnsureStorageExists | simple-storage.js:19-29 | only an absent key is initialised with an empty list; anything else is left alone |
| SimpleStorage.SimpleStore.GetAllData | simple-storage.js:32-42 | the stored object, or the empty fallback when the key is absent or its text does not parse |
| SimpleStorage.SimpleStore.SaveAllData | simple-storage.js:45-55 | the stamped object is written when the write succeeds and then read back |
| SimpleStorage.SimpleStore.AddProperty | simple-storage.js:64-79 | the new entry is appended to the stored list; null and nothing written when the write fails |
| SimpleStorage.SimpleStore.UpdateProperty | simple-storage.js:82-97 | null and nothing written for a missing index or a failed write; otherwise the merged entry, the other entries untouched |
| SimpleStorage.SimpleStore.DeleteProperty | simple-storage.js:100-111 | true exactly when the index names an entry and the write succeeds, and then exactly that entry is gone |
| SimpleStorage.SimpleStore.SavePropertyData | simple-storage.js:114-131 | false for a missing index; otherwise the four sections, each {} when missing, become that entry's form data and read back |
| SimpleStorage.SimpleStore.LoadPropertyData | simple-storage.js:134-141 | the entry's form data, or null exactly when the entry or its form data is missing |
| DataManager.Filter | bidcal/bidcal/Managers/DataManager.swift:68-80 | Swift's filter keeps only elements that satisfy the test, and never more than there were |
| DataManager.FilterComplete | bidcal/bidcal/Managers/DataManager.swift:68-80 | nothing that satisfies the test is dropped |
| DataManager.FilterTwice | bidcal/bidcal/Managers/DataManager.swift:68-80 | filtering by one test and then another keeps exactly the elements passing both, in order |
| DataManager.FilterAppend | bidcal/bidcal/Managers/DataManager.swift:68-80 | filtering distributes over concatenation |
| DataManager.FilterAll | bidcal/bidcal/Managers/DataManager.swift:68-80 | a test every element passes keeps the whole list |
| DataManager.FilterMembers | bidcal/bidcal/Managers/DataManager.swift:68-91 | the filtered list holds exactly the elements that pass |
| DataManager.FirstIndexOf | bidcal/bidcal/Managers/DataManager.swift:43 | the position of the first entry with the id, or none exactly when no entry has it |
| DataManager.EmptyQueryMatchesNone | bidcal/bidcal/Managers/DataManager.swift:84-90 | filtering by the empty query keeps nothing, since Foundation finds no empty needle, so it is the guard that makes the empty search return every entry |
| DataManager.FilterStages | bidcal/bidcal/Managers/DataManager.swift:68-80 | filtering by status and then by type is one pass keeping entries that meet both, a missing constraint meaning none |
| DataManager.DataManager.constructor | bidcal/bidcal/Managers/DataManager.swift:12-14 | the shared instance starts with the saved list newest first, or empty when nothing can be decoded |
| DataManager.DataManager.LoadProperties | bidcal/bidcal/Managers/DataManager.swift:17-24 | the saved list sorted newest first, a permutation of it, or empty when nothing can be decoded |
| DataManager.DataManager.SaveProperties | bidcal/bidcal/Managers/DataManager.swift:27-30 | the list is written whole when JSONEncoder succeeds; when encoding throws the store keeps its old value, and the list is unchanged either way |
| DataManager.DataManager.AddProperty | bidcal/bidcal/Managers/DataManager.swift:33-39 | the stamped property is inserted at the front and the old entries follow in order; the store holds the new list exactly when encoding succeeds |
| DataManager.DataManager.UpdateProperty | bidcal/bidcal/Managers/DataManager.swift:42-48 | only the first entry with the id is replaced, with its modification date stamped; without one nothing changes and nothing is written; with one the store holds the new list exactly when encoding succeeds |
| DataManager.DataManager.DeleteProperty | bidcal/bidcal/Managers/DataManager.swift:51-54 | every entry with the id goes and the rest keep their order; the store holds the new list exactly when encoding succeeds |
| DataManager.DataManager.GetProperty | bidcal/bidcal/Managers/DataManager.swift:63-65 | the first entry with the id, as first(where:) returns, or nil exactly when none has it |
| DataManager.DataManager.FilterProperties | bidcal/bidcal/Managers/DataManager.swift:68-80 | exactly the entries meeting every given constraint, in list order |
| DataManager.DataManager.SearchProperties | bidcal/bidcal/Managers/DataManager.swift:83-91 | everything for the empty query, otherwise exactly the entries whose case number, location or court contains the non-empty query ignoring case, in list order |
| Sorting.WithKey | bidcal/bidcal/Managers/DataManager.swift:23 | the elements with one key value, never more than the list holds |
| Sorting.InsertDescPerm | bidcal/bidcal/Managers/DataManager.swift:23 | inserting adds exactly the one element |
| Sorting.SortDescPerm | bidcal/bidcal/Managers/DataManager.swift:23 | sorting is a permutation |
| Sorting.WithKeyAppend | bidcal/bidcal/Managers/DataManager.swift:23 | picking one key value distributes over concatenation |
| Sorting.InsertDescSorted | bidcal/bidcal/Managers/DataManager.swift:23 | inserting into a newest-first list keeps it newest first |
| Sorting.InsertDescStable | bidcal/bidcal/Managers/DataManager.swift:23 | inserting keeps the order of the elements sharing a key and puts the new one after them |
| Sorting.SortDescSorted | bidcal/bidcal/Managers/DataManager.swift:23 | the sorted list is newest first |
| Sorting.SortDescStable | bidcal/bidcal/Managers/DataManager.swift:23 | the elements of any one key keep their original order |
| Sorting.SortDescMembers | bidcal/bidcal/Managers/DataManager.swift:23 | sorting keeps the length and the members |
| Sorting.SortDescLongerFirst | bidcal/bidcal/Managers/DataManager.swift:23 | of two positions with different keys the larger key comes first |

## Left out

- Network access, Selenium, HTTP sessions and public-data APIs are not modelled. Each provider is a function parameter that returns a record, nothing, or an error. The `collect_*` providers and `collect_multiple_api_data` (api_data_collector.py:36-176) are therefore not modelled; their parsed outputs are the combiner's input.
- Spreadsheet reading (`pd.read_excel`) is not modelled. Each row arrives as the `str()` text of its cells with ',' and '%' already removed (`AuctionStatistics.Cells`).
- HTML parsing is not modelled. `extract_auction_data_from_html` starts from the already-extracted cell texts of a row.
- Clocks, `datetime.now()`, generated ids (`Date.now()`, `Math.random()`, `UUID()`) and `Date` values are parameters or plain numbers.
  - The synthetic tier's "today + 7 days in this month" test is the boolean `weekAheadInMonth`.
  - The CSV import id is a parameter.
- DOM reads and writes, alerts, console logging and file downloads are not modelled. This covers `downloadCSV`, the import confirmation dialog, the Excel/SheetJS reader and the simple-storage form collect/load helpers.
- JSON text is not modelled: the stores hold parsed values. A failed `localStorage` write is the `writeOk` parameter of the web stores, and a `JSONEncoder` that throws in `saveProperties` is the `encodeOk` parameter of `DataManager.DataManager`.
  - Nested `data`/`formData` keys are not modelled.
  - A stored object whose `properties` is not an array is not modelled.
  - A `null` or non-integer stored index is not modelled.
- SimpleStorage.SimpleStore.constructor: the write made by `ensureStorageExists` is modelled as one that succeeds.
- `getProperties` and `getCurrentPropertyIndex` are plain field reads and need no member.
- `clearAllProperties` and `clearAllPropertyDetails` (storage-manager.js:266-320) are not modelled. They enumerate every `property_all_` key of local storage, including keys written outside this class, and the model does not hold those keys. Their reset of the property list is the one `clearAllData` performs.
- `deleteProperties(at:)` (bidcal/bidcal/Managers/DataManager.swift:57-60) is not modelled: it is the offset-set form of `deleteProperty` and only the single-index form is modelled.
- RegionDataLoader is not part of this model. `RegionStatistics.RegionData.LoadStatistics` installs the five hard-coded sample rows whatever the region, as `loadStatistics` does. The rate the loader would give is the `loader` parameter of `AuctionCalculator.SalePriceRate` and `AuctionCalculator.RunSimulation`.
- `calculatePriceRatioForTargetProbability` is not modelled. It searches a floating-point grid whose steps accumulate rounding error.
- Floating point:
  - Python `float`, Swift `Double` and JavaScript numbers are exact reals. Infinity and NaN appear only where a division or `Math.pow` can produce them (module `JsNumber`).
  - `parseFloat` and `toFixed` formatting are not modelled: rates arrive already parsed, and `BidCalculator.ProfitMargin` is the number before `toFixed(1)`.
  - Python f-string formatting is not modelled. The `:,` and `.1f` texts `priceRange`, `averagePrice` and `priceVariation` (api_data_collector.py:292-296, advanced_crawler.py:369-377) and the recommendation `reason` text (auction_statistics.py:224-236) are kept as the numbers they format.
  - `Math.pow` with a fractional exponent is the `pow` parameter of `BidCalculator.MarketFactor` and `BidCalculator.UrgencyFactor`.
- PriceConsensus.Tenths: `int(m * 0.9)` and `int(m * 0.7)` are exact floors of the real product. The source computes them in binary floating point and could differ by one won at a boundary.
- Text handling is ASCII-only:
  - case folding uses ASCII lower case only;
  - Python `int()` on non-ASCII Unicode digits is not modelled;
  - Python `str.isdigit` accepts only ASCII digits in the model.
  - JavaScript `\b` is modelled exactly, because it uses ASCII word characters.
- Sorting.SortDescStable: Swift's `sorted(by:)` promises no stability. The model fixes it as stable, which agrees with every sort whose keys are distinct.
- The inspection and simulation fields of `AuctionProperty` that no modelled operation reads are not modelled.

Where the documented design and the code differ, the model follows the code:

- A district query that matches more than one district by substring resolves to the first match in load order, not the most specific one.
- The average price of the combiners is truncated with `int(sum / len)`, not rounded.
- The advanced combiner divides by the minimum price without a guard, and `crawl_multiple_sources` calls it outside any `try` (see Findings). `AdvancedCrawler.CrawlMultipleSourcesAsWritten` keeps that failure; `AdvancedCrawler.CrawlMultipleSources` is the corrected crawl.
- Provider chains are tried one after another, and the first success wins. They do not fan out.

## Findings

| source | as written | input that shows it | evidently intended | confidence | as-written member | corrected member |
|---|---|---|---|---|---|---|
| advanced_crawler.py:375 | the price variation divides by `min(prices)`, and a source whose market price is present but 0 is included | one source with `marketPrice` 0, such as a court page whose price cell has no digits: `ZeroDivisionError` escapes `combine_and_analyze_data` and `crawl_multiple_sources` | a zero minimum gives a variation of 0 | not executed | AdvancedCrawler.CourtZeroPriceCrawlRaises | AdvancedCrawler.CombinedFigures |
| auction_crawler.py:285-286 | the fallback reads `int(case_number[:4])`, which raises for a case number that failed to parse because its year is not digits | `"abcd타경1"`: `ValueError` escapes `get_auction_data` | a year that is not a number is treated like the default year 2024, and a simulation record is always returned | not executed | AuctionCrawler.NonNumericYearRaises | AuctionCrawler.MalformedFallsBack |
| real_court_auction_crawler.py:439-458 | every digit of the text is concatenated and then multiplied by the first unit found | `"1억 5000만"` reads as 1,500,000,000,000 and `"3천만"` as 30,000 | 150,000,000 and 30,000,000 (억, 만 and 천만 units added up) | not executed | CourtCrawler.MixedUnitsAsWritten | CourtCrawler.MixedUnitsRead |
| storage-manager.js:21 | `currentPropertyIndex \|\| -1` turns a stored index 0 into -1 | data saved with the first property selected reloads with no property selected | the stored index is kept, as `importData` does with `!== undefined` | not executed | StorageManager.FirstSelectionLostAsWritten | StorageManager.SaveLoadRoundTrip |

For findings 3 and 4 the rest of the model keeps the code as written: the court crawler's records read prices with `CourtCrawler.ParsePriceAsWritten`, and a new `StorageManager.StorageManager` loads with `StorageManager.LoadDataAsWritten`. The corrected members sit beside them with their intended properties proved.
