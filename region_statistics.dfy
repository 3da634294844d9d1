// The regional statistics of the iOS app (RegionStatistics.swift): the
// statistics record, the shared store of loaded rows, the sale-price-rate
// lookup with its 80% default, and the fixed district lists per region.

module RegionStatistics {
  import opened Wrappers

  /** One row of statistics; the row identifier is not part of this model. */
  datatype RegionStatistics = RegionStatistics(
    region: string,
    district: Option<string>,
    salePriceRate: real,
    saleSuccessRate: real,
    averageBidCount: real,
    period: string,
    investmentRecommendation: Option<string>)

  /** recommendationStars: the recommendation as given, or the empty text when there is none. */
  function RecommendationStars(s: RegionStatistics): (stars: string)
    ensures s.investmentRecommendation.None? ==> stars == ""
    ensures s.investmentRecommendation.Some? ==> stars == s.investmentRecommendation.value
  {
    match s.investmentRecommendation
    case None => ""
    case Some(recommendation) => recommendation
  }

  /** The rate used when no row answers a lookup. */
  const DefaultRate: real := 80.0

  /** The rows the store is filled with, whatever region is asked for. */
  const SampleData: seq<RegionStatistics> := [
    RegionStatistics("서울", Some("강남구"), 85.3, 78.5, 8.2, "2024.08-2025.09", Some("⭐⭐⭐⭐")),
    RegionStatistics("서울", Some("서초구"), 82.7, 72.1, 7.5, "2024.08-2025.09", Some("⭐⭐⭐")),
    RegionStatistics("서울", Some("송파구"), 87.1, 80.3, 9.1, "2024.08-2025.09", Some("⭐⭐⭐⭐⭐")),
    RegionStatistics("경기", Some("수원시"), 78.5, 75.2, 6.8, "2024.08-2025.09", Some("⭐⭐⭐")),
    RegionStatistics("부산", Some("해운대구"), 80.2, 71.8, 7.3, "2024.08-2025.09", Some("⭐⭐⭐"))]

  /** A row answers a lookup: same region, and same district when one is asked for. */
  predicate Answers(s: RegionStatistics, region: string, district: Option<string>)
  {
    s.region == region && (district.Some? ==> s.district == district)
  }

  /** The rate of the first row answering the lookup, or the default. */
  function RateIn(rows: seq<RegionStatistics>, region: string, district: Option<string>): (r: real)
    ensures (forall i :: 0 <= i < |rows| ==> !Answers(rows[i], region, district)) ==> r == DefaultRate
    ensures forall i :: 0 <= i < |rows| && Answers(rows[i], region, district)
                        && (forall j :: 0 <= j < i ==> !Answers(rows[j], region, district))
                        ==> r == rows[i].salePriceRate
  {
    if |rows| == 0 then DefaultRate
    else if Answers(rows[0], region, district) then rows[0].salePriceRate
    else
      assert forall i :: 1 <= i < |rows| ==> rows[1..][i - 1] == rows[i];
      RateIn(rows[1..], region, district)
  }

  /** The shared store of loaded statistics. */
  class RegionData {
    var statistics: seq<RegionStatistics>

    constructor ()
      ensures statistics == []
    {
      statistics := [];
    }

    /** loadStatistics: the sample rows, for any region. */
    method LoadStatistics(region: string)
      modifies this
      ensures statistics == SampleData
    {
      statistics := SampleData;
    }

    /** getSalePriceRate */
    function GetSalePriceRate(region: string, district: Option<string>): (r: real)
      reads this
      ensures r == RateIn(statistics, region, district)
    {
      RateIn(statistics, region, district)
    }
  }

  /** With a district asked for, a row of the same region but another or no district is never
      used: without an exact row the answer is the default. */
  lemma NoRegionFallback(rows: seq<RegionStatistics>, region: string, district: string)
    requires forall i :: 0 <= i < |rows| ==> rows[i].region != region || rows[i].district != Some(district)
    ensures RateIn(rows, region, Some(district)) == DefaultRate
  {
  }

  /** After loading, the sample rows answer: 강남구 by its own row, 서울 by its first row, and
      성남시 by the default although 경기 has a row. */
  lemma SampleLookups(store: RegionData)
    requires store.statistics == SampleData
    ensures store.GetSalePriceRate("서울", Some("강남구")) == 85.3
    ensures store.GetSalePriceRate("서울", None) == 85.3
    ensures store.GetSalePriceRate("경기", None) == 78.5
    ensures store.GetSalePriceRate("경기", Some("성남시")) == DefaultRate
    ensures store.GetSalePriceRate("대구", None) == DefaultRate
  {
    SampleFound(store);
    SampleMissing(store);
  }

  lemma SampleFound(store: RegionData)
    requires store.statistics == SampleData
    ensures store.GetSalePriceRate("서울", Some("강남구")) == 85.3
    ensures store.GetSalePriceRate("서울", None) == 85.3
    ensures store.GetSalePriceRate("경기", None) == 78.5
  {
    var rows := store.statistics;
    assert Answers(rows[0], "서울", Some("강남구")) && Answers(rows[0], "서울", None);
    assert Answers(rows[3], "경기", None);
    assert forall i :: 0 <= i < 3 ==> rows[i].region == "서울";
  }

  lemma SampleMissing(store: RegionData)
    requires store.statistics == SampleData
    ensures store.GetSalePriceRate("경기", Some("성남시")) == DefaultRate
    ensures store.GetSalePriceRate("대구", None) == DefaultRate
  {
    var rows := store.statistics;
    assert forall i :: 0 <= i < 3 ==> rows[i].region == "서울";
    assert rows[4].region == "부산";
    assert forall i :: 0 <= i < |rows| ==> rows[i].region != "대구";
  }

  /** The regions of the picker. */
  const Regions: seq<string> := ["서울", "경기", "인천", "부산", "대구", "광주", "대전", "울산", "세종"]

  /** districts(for:): the fixed district list of a region, empty for any other region. */
  function Districts(region: string): (names: seq<string>)
    ensures region !in Regions ==> names == []
  {
    match region
    case "서울" => ["강남구", "서초구", "송파구", "강동구", "광진구", "성동구", "중구", "용산구", "마포구", "서대문구",
                  "은평구", "종로구", "중랑구", "동대문구", "성북구", "강북구", "도봉구", "노원구", "양천구", "강서구"]
    case "경기" => ["수원시", "성남시", "고양시", "용인시", "부천시", "안산시", "안양시", "평택시", "시흥시", "김포시"]
    case "인천" => ["계양구", "미추홀구", "남동구", "서구", "강화군", "옹진군"]
    case "부산" => ["해운대구", "사하구", "금정구", "강서구", "연제구", "수영구", "사상구", "기장군"]
    case "대구" => ["수성구", "달서구", "중구", "남구", "북구", "서구"]
    case "광주" => ["광산구", "서구", "남구", "동구", "북구"]
    case "대전" => ["유성구", "서구", "중구", "동구"]
    case "울산" => ["남구", "북구", "중구", "울주군"]
    case "세종" => ["조치원읍", "연기면", "소정면", "전의면", "전동면"]
    case _ => []
  }

  /** Every listed region has at least one district. */
  lemma ListedRegionsHaveDistricts(region: string)
    requires region in Regions
    ensures |Districts(region)| >= 4
  {
  }
}
