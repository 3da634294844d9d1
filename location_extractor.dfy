// The address readers of fix-sale-rate.js: a district name or a region name
// is found in a free-text address by scanning fixed lists of names, longest
// first. Each scan first looks for a name delimited by JavaScript regular
// expression word boundaries (`\b`, whose word characters are the ASCII
// letters, digits and `_`), then for a plain substring occurrence.

module SaleRateFix {
  import opened Wrappers
  import opened Text
  import opened Sorting
  import opened JsNumber

  const GyeonggiDistricts: seq<string> := [
    "수원시", "성남시", "의정부시", "안양시", "부천시", "광명시", "평택시", "과천시", "오산시", "시흥시",
    "군포시", "의왕시", "하남시", "용인시", "파주시", "이천시", "안성시", "김포시", "화성시", "광주시",
    "여주시", "양평군", "고양시", "동두천시", "가평군", "연천군"]
  const SeoulDistricts: seq<string> := [
    "강남구", "강동구", "강북구", "강서구", "관악구", "광진구", "구로구", "금천구", "노원구", "도봉구",
    "동대문구", "동작구", "마포구", "서대문구", "서초구", "성동구", "성북구", "송파구", "양천구", "영등포구",
    "용산구", "은평구", "종로구", "중구", "중랑구"]
  const BusanDistricts: seq<string> := [
    "강서구", "금정구", "남구", "동구", "동래구", "부산진구", "북구", "사상구", "사하구", "서구",
    "수영구", "연제구", "영도구", "중구", "해운대구", "기장군"]
  const IncheonDistricts: seq<string> := [
    "계양구", "남구", "남동구", "동구", "부평구", "서구", "연수구", "중구", "강화군", "옹진군"]

  /** The regions in the order the region reader scans them. */
  const RegionMappings: seq<(string, seq<string>)> := [
    ("경기", GyeonggiDistricts), ("서울", SeoulDistricts), ("부산", BusanDistricts), ("인천", IncheonDistricts)]

  /** The district reader's list, duplicates included: its 경기, 서울, 부산 and 인천 parts. */
  const AllGyeonggi: seq<string> := [
    "부천시 오정구", "부천시 소사구", "부천시 원미구",
    "수원시 영통구", "수원시 팔달구", "수원시 장안구", "수원시 권선구",
    "성남시 분당구", "성남시 수정구", "성남시 중원구",
    "안양시 만안구", "안양시 동안구",
    "고양시 덕양구", "고양시 일산동구", "고양시 일산서구",
    "용인시 처인구", "용인시 기흥구", "용인시 수지구",
    "화성시 동탄구", "화성시 동탄신도시",
    "의정부시", "광명시", "평택시", "과천시", "오산시", "시흥시",
    "군포시", "의왕시", "하남시", "파주시", "이천시", "안성시",
    "김포시", "광주시", "여주시", "양평군", "동두천시", "가평군", "연천군"]
  const AllBusan: seq<string> := [
    "중구", "서구", "동구", "영도구", "부산진구", "동래구", "남구", "북구",
    "해운대구", "사하구", "금정구", "강서구", "연제구", "수영구", "사상구", "기장군"]
  const AllIncheon: seq<string> := [
    "중구", "동구", "미추홀구", "연수구", "남동구", "부평구", "계양구", "서구", "강화군", "옹진군"]
  const AllDistricts: seq<string> := AllGyeonggi + SeoulDistricts + AllBusan + AllIncheon

  /** The districts with curated sale-rate data (getAccurateRegionalData). */
  datatype RateInfo = RateInfo(saleRate: string, salePercent: string, recommendation: string)

  const RegionalData: map<string, RateInfo> := map[
    "부천시 오정구" := RateInfo("78.2%", "28.8%", "추천"),
    "부천시 원미구" := RateInfo("80.3%", "30.3%", "추천"),
    "부천시 소사구" := RateInfo("79.5%", "29.5%", "추천"),
    "강남구" := RateInfo("85.0%", "35.0%", "추천"),
    "해운대구" := RateInfo("76.2%", "26.2%", "보통"),
    "서초구" := RateInfo("83.5%", "33.5%", "추천"),
    "송파구" := RateInfo("81.2%", "31.2%", "추천")]

  // ---------------------------------------------------------------------
  // Word boundaries and the two kinds of match

  predicate IsWordChar(c: char)
  {
    ('a' <= c <= 'z') || ('A' <= c <= 'Z') || ('0' <= c <= '9') || c == '_'
  }

  /** `\b` at position p: exactly one of the neighbouring characters is a word character. */
  predicate WordBoundary(s: string, p: int)
    requires 0 <= p <= |s|
  {
    (p > 0 && IsWordChar(s[p - 1])) != (p < |s| && IsWordChar(s[p]))
  }

  /** new RegExp(`\b${name}\b`).test(s); the names hold no pattern metacharacters. */
  predicate BoundedMatch(s: string, name: string)
  {
    exists i | 0 <= i <= |s| - |name| :: OccursAt(s, name, i) && WordBoundary(s, i) && WordBoundary(s, i + |name|)
  }

  lemma BoundedMatchContains(s: string, name: string)
    requires BoundedMatch(s, name)
    ensures Contains(s, name)
  {
  }

  /** Without ASCII word characters there is no `\b` anywhere, so no bounded match. */
  lemma NoWordCharNoBoundedMatch(s: string, name: string)
    requires forall k :: 0 <= k < |s| ==> !IsWordChar(s[k])
    ensures !BoundedMatch(s, name)
  {
  }

  function LengthKey(name: string): real
  {
    |name| as real
  }

  /** `names.sort((a, b) => b.length - a.length)`: stable, longest first. */
  function ByLength(names: seq<string>): seq<string>
  {
    SortDesc(names, LengthKey)
  }

  lemma ByLengthSpec(names: seq<string>)
    ensures NonIncreasing(ByLength(names), LengthKey)
    ensures |ByLength(names)| == |names|
    ensures forall x :: x in ByLength(names) <==> x in names
  {
    SortDescSorted(names, LengthKey);
    SortDescMembers(names, LengthKey);
  }

  // ---------------------------------------------------------------------
  // First hit in a list

  /** The first name of the list satisfying p. */
  function First(names: seq<string>, p: string -> bool): (r: Option<string>)
    ensures r.Some? ==> r.value in names && p(r.value)
    ensures r.None? <==> forall k :: 0 <= k < |names| ==> !p(names[k])
  {
    if |names| == 0 then None
    else if p(names[0]) then Some(names[0])
    else
      var r := First(names[1..], p);
      assert forall k :: 1 <= k < |names| ==> names[k] == names[1..][k - 1];
      r
  }

  /** The first hit comes before every other name satisfying p. */
  lemma {:induction false} FirstIsEarliest(names: seq<string>, p: string -> bool)
    requires First(names, p).Some?
    ensures exists k :: 0 <= k < |names| && names[k] == First(names, p).value
                        && forall j :: 0 <= j < k ==> !p(names[j])
  {
    if !p(names[0]) {
      FirstIsEarliest(names[1..], p);
      var k :| 0 <= k < |names[1..]| && names[1..][k] == First(names[1..], p).value
               && forall j :: 0 <= j < k ==> !p(names[1..][j]);
      assert names[k + 1] == First(names, p).value;
      assert forall j :: 1 <= j < k + 1 ==> names[j] == names[1..][j - 1];
    } else {
      assert names[0] == First(names, p).value;
    }
  }

  /** In a longest-first list the first hit is at least as long as any other hit. */
  lemma FirstIsLongest(names: seq<string>, p: string -> bool, other: string)
    requires NonIncreasing(names, LengthKey)
    requires other in names && p(other)
    ensures First(names, p).Some? && |other| <= |First(names, p).value|
  {
    FirstIsEarliest(names, p);
    var k :| 0 <= k < |names| && names[k] == First(names, p).value
             && forall j :: 0 <= j < k ==> !p(names[j]);
    var j :| 0 <= j < |names| && names[j] == other;
    assert k <= j;
    assert LengthKey(names[k]) >= LengthKey(names[j]);
  }

  // ---------------------------------------------------------------------
  // extractDistrictFromLocation

  /** `!location` for a string argument: absent or empty. */
  predicate Falsy(location: Option<string>)
  {
    location.None? || location.value == ""
  }

  /** The bounded pass over the sorted list, then the substring pass. */
  function ScanNames(t: string, sorted: seq<string>): Option<string>
  {
    match First(sorted, name => BoundedMatch(t, name))
    case Some(d) => Some(d)
    case None => First(sorted, name => Contains(t, name))
  }

  /** extractDistrictFromLocation over a list of names. */
  function ExtractDistrictFrom(location: Option<string>, names: seq<string>): Option<string>
  {
    if Falsy(location) then None
    else ScanNames(JsTrim(location.value), ByLength(names))
  }

  function ExtractDistrict(location: Option<string>): Option<string>
  {
    ExtractDistrictFrom(location, AllDistricts)
  }

  /** The two loops of extractDistrictFromLocation with their early returns. */
  method ExtractDistrictFromLocation(location: Option<string>) returns (district: Option<string>)
    ensures district == ExtractDistrict(location)
  {
    district := ScanLocation(location, AllDistricts);
  }

  method ScanLocation(location: Option<string>, names: seq<string>) returns (district: Option<string>)
    ensures district == ExtractDistrictFrom(location, names)
  {
    if Falsy(location) {
      return None;
    }
    var t := JsTrim(location.value);
    var sorted := ByLength(names);
    district := FirstMethod(sorted, name => BoundedMatch(t, name));
    if district.Some? {
      return;
    }
    district := FirstMethod(sorted, name => Contains(t, name));
  }

  /** A `for ... of` loop returning the first name satisfying p, or null. */
  method FirstMethod(names: seq<string>, p: string -> bool) returns (r: Option<string>)
    ensures r == First(names, p)
  {
    var i := 0;
    while i < |names|
      invariant 0 <= i <= |names|
      invariant First(names, p) == First(names[i..], p)
    {
      assert names[i..][1..] == names[i + 1..];
      if p(names[i]) {
        return Some(names[i]);
      }
      i := i + 1;
    }
    return None;
  }

  /** Whether any name of the list occurs in the text. */
  predicate Mentions(t: string, names: seq<string>)
  {
    exists k :: 0 <= k < |names| && Contains(t, names[k])
  }

  /** A scan of the sorted list finds a listed name occurring in the text, and finds one
      exactly when some listed name occurs. */
  lemma ScanNamesHit(t: string, names: seq<string>)
    ensures ScanNames(t, ByLength(names)).Some? <==> Mentions(t, names)
    ensures ScanNames(t, ByLength(names)).Some? ==>
              exists k :: 0 <= k < |names| && names[k] == ScanNames(t, ByLength(names)).value
                          && Contains(t, names[k])
  {
    ByLengthSpec(names);
    var sorted := ByLength(names);
    if ScanNames(t, sorted).Some? {
      var d := ScanNames(t, sorted).value;
      if First(sorted, name => BoundedMatch(t, name)).Some? {
        BoundedMatchContains(t, d);
      }
      assert d in names;
      var k :| 0 <= k < |names| && names[k] == d;
    } else {
      forall k | 0 <= k < |names|
        ensures !Contains(t, names[k])
      {
        assert names[k] in sorted;
        var j :| 0 <= j < |sorted| && sorted[j] == names[k];
      }
    }
  }

  /** null exactly for a falsy location or one in which no listed name occurs after trimming;
      otherwise a listed name that occurs in the trimmed location. */
  lemma DistrictFound(location: Option<string>, names: seq<string>)
    ensures ExtractDistrictFrom(location, names).None? <==> Falsy(location) || !Mentions(JsTrim(location.value), names)
    ensures ExtractDistrictFrom(location, names).Some? ==>
              exists k :: 0 <= k < |names| && names[k] == ExtractDistrictFrom(location, names).value
                          && Contains(JsTrim(location.value), names[k])
  {
    if !Falsy(location) {
      ScanNamesHit(JsTrim(location.value), names);
    }
  }

  /** Longest first: no listed name with a bounded match is longer than the result, and when
      none has one, no listed name occurring in the location is longer than the result. */
  lemma DistrictLongest(location: Option<string>, names: seq<string>, k: int)
    requires !Falsy(location) && 0 <= k < |names|
    requires BoundedMatch(JsTrim(location.value), names[k])
          || (Contains(JsTrim(location.value), names[k])
              && forall j :: 0 <= j < |names| ==> !BoundedMatch(JsTrim(location.value), names[j]))
    ensures ExtractDistrictFrom(location, names).Some?
    ensures |names[k]| <= |ExtractDistrictFrom(location, names).value|
  {
    var t := JsTrim(location.value);
    ByLengthSpec(names);
    var sorted := ByLength(names);
    assert names[k] in sorted;
    if BoundedMatch(t, names[k]) {
      FirstIsLongest(sorted, name => BoundedMatch(t, name), names[k]);
    } else {
      forall j | 0 <= j < |sorted|
        ensures !BoundedMatch(t, sorted[j])
      {
        assert sorted[j] in names;
      }
      FirstIsLongest(sorted, name => Contains(t, name), names[k]);
    }
  }

  /** An ordinary Korean address has no `\b`, so the longer 강동구 wins over 동구. */
  lemma GangdongOverDonggu(s: string)
    requires s == "서울시 강동구"
    ensures var r := ExtractDistrict(Some(s));
            r.Some? && |r.value| >= 3 && r.value != "동구"
  {
    GangdongIn(s, AllDistricts);
  }

  lemma GangdongIn(s: string, names: seq<string>)
    requires s == "서울시 강동구" && names == AllDistricts
    ensures var r := ExtractDistrictFrom(Some(s), names); r.Some? && |r.value| >= 3
  {
    TrimNoop(s, IsJsSpace);
    forall j | 0 <= j < |names|
      ensures !BoundedMatch(s, names[j])
    {
      NoWordCharNoBoundedMatch(s, names[j]);
    }
    assert |AllGyeonggi| == 39 && SeoulDistricts[1] == "강동구";
    assert names[40] == SeoulDistricts[1];
    assert OccursAt(s, names[40], 4);
    DistrictLongest(Some(s), names, 40);
  }

  // ---------------------------------------------------------------------
  // extractRegionFromLocation

  /** The region of the first mapping, in order, with a hit in either pass. */
  function ScanRegions(t: string, mappings: seq<(string, seq<string>)>): Option<string>
  {
    if |mappings| == 0 then None
    else if ScanNames(t, ByLength(mappings[0].1)).Some? then Some(mappings[0].0)
    else ScanRegions(t, mappings[1..])
  }

  /** extractRegionFromLocation over a list of regions. */
  function ExtractRegionFrom(location: Option<string>, mappings: seq<(string, seq<string>)>): Option<string>
  {
    if Falsy(location) then None else ScanRegions(JsTrim(location.value), mappings)
  }

  function ExtractRegion(location: Option<string>): Option<string>
  {
    ExtractRegionFrom(location, RegionMappings)
  }

  method ExtractRegionFromLocation(location: Option<string>) returns (region: Option<string>)
    ensures region == ExtractRegion(location)
  {
    if Falsy(location) {
      return None;
    }
    region := ScanRegionsLoop(JsTrim(location.value), RegionMappings);
  }

  /** The outer loop over the regions, each with its two inner passes. */
  method ScanRegionsLoop(t: string, mappings: seq<(string, seq<string>)>) returns (region: Option<string>)
    ensures region == ScanRegions(t, mappings)
  {
    var i := 0;
    while i < |mappings|
      invariant 0 <= i <= |mappings|
      invariant ScanRegions(t, mappings) == ScanRegions(t, mappings[i..])
    {
      assert mappings[i..][1..] == mappings[i + 1..];
      var sorted := ByLength(mappings[i].1);
      var hit := FirstMethod(sorted, name => BoundedMatch(t, name));
      if hit.Some? {
        return Some(mappings[i].0);
      }
      hit := FirstMethod(sorted, name => Contains(t, name));
      if hit.Some? {
        return Some(mappings[i].0);
      }
      i := i + 1;
    }
    return None;
  }

  /** The region is that of the first mapping in scan order one of whose names occurs in the
      trimmed location; the length order within a region does not change which region wins. */
  lemma {:induction false} ScanRegionsFirst(t: string, mappings: seq<(string, seq<string>)>)
    ensures ScanRegions(t, mappings).None? <==> forall m :: 0 <= m < |mappings| ==> !Mentions(t, mappings[m].1)
    ensures ScanRegions(t, mappings).Some? ==>
              exists m :: 0 <= m < |mappings| && mappings[m].0 == ScanRegions(t, mappings).value
                          && Mentions(t, mappings[m].1)
                          && forall j :: 0 <= j < m ==> !Mentions(t, mappings[j].1)
  {
    if |mappings| > 0 {
      ScanNamesHit(t, mappings[0].1);
      var tail := mappings[1..];
      ScanRegionsFirst(t, tail);
      if Mentions(t, mappings[0].1) {
        assert ScanRegions(t, mappings) == Some(mappings[0].0);
      } else {
        assert ScanRegions(t, mappings) == ScanRegions(t, tail);
        if ScanRegions(t, tail).Some? {
          var m :| 0 <= m < |tail| && tail[m].0 == ScanRegions(t, tail).value
                   && Mentions(t, tail[m].1)
                   && forall j :: 0 <= j < m ==> !Mentions(t, tail[j].1);
          assert mappings[m + 1] == tail[m];
          forall j | 0 <= j < m + 1
            ensures !Mentions(t, mappings[j].1)
          {
            if j > 0 {
              assert mappings[j] == tail[j - 1];
            }
          }
        } else {
          forall m | 0 <= m < |mappings|
            ensures !Mentions(t, mappings[m].1)
          {
            if m > 0 {
              assert mappings[m] == tail[m - 1];
            }
          }
        }
      }
    }
  }

  /** No name ending in a character absent from the text occurs in it. */
  lemma NoneEndingIn(t: string, names: seq<string>, ends: string)
    requires forall k :: 0 <= k < |names| ==> |names[k]| > 0 && names[k][|names[k]| - 1] in ends
    requires forall c :: c in ends ==> c !in t
    ensures !Mentions(t, names)
  {
    forall k | 0 <= k < |names|
      ensures !Contains(t, names[k])
    {
      if Contains(t, names[k]) {
        ContainsHasChar(t, names[k], |names[k]| - 1);
      }
    }
  }

  /** The second region wins when the first has no name in the text and the second has one. */
  lemma ScanRegionsSecond(t: string, mappings: seq<(string, seq<string>)>)
    requires |mappings| >= 2 && !Mentions(t, mappings[0].1) && Mentions(t, mappings[1].1)
    ensures ScanRegions(t, mappings) == Some(mappings[1].0)
  {
    ScanNamesHit(t, mappings[0].1);
    ScanNamesHit(t, mappings[1].1);
    assert mappings[1..][0] == mappings[1];
  }

  /** 중구 is listed under 서울 before 부산, so an address in 부산 중구 reads as 서울. */
  lemma JungguReadsAsSeoul(s: string, mappings: seq<(string, seq<string>)>)
    requires s == "부산 중구" && mappings == RegionMappings
    ensures ExtractRegionFrom(Some(s), mappings) == Some("서울")
  {
    TrimNoop(s, IsJsSpace);
    TrimmedRegion(s, mappings);
    JungguIn(s, mappings);
  }

  lemma TrimmedRegion(s: string, mappings: seq<(string, seq<string>)>)
    requires s != "" && JsTrim(s) == s
    ensures ExtractRegionFrom(Some(s), mappings) == ScanRegions(s, mappings)
  {
  }

  lemma JungguIn(s: string, mappings: seq<(string, seq<string>)>)
    requires s == "부산 중구" && mappings == RegionMappings
    ensures ScanRegions(s, mappings) == Some("서울")
  {
    NoGyeonggiName(s, mappings[0].1);
    SeoulJunggu(s, mappings[1].1);
    ScanRegionsSecond(s, mappings);
  }

  lemma NoGyeonggiName(s: string, names: seq<string>)
    requires s == "부산 중구" && names == GyeonggiDistricts
    ensures !Mentions(s, names)
  {
    assert forall k :: 0 <= k < |names| ==> |names[k]| > 0 && names[k][|names[k]| - 1] in "시군";
    NoneEndingIn(s, names, "시군");
  }

  lemma SeoulJunggu(s: string, names: seq<string>)
    requires s == "부산 중구" && names == SeoulDistricts
    ensures Mentions(s, names)
  {
    assert names[23] == "중구";
    assert OccursAt(s, names[23], 3);
  }

  // ---------------------------------------------------------------------
  // setAccurateSaleRateInfo and compareDataSources

  /** The value setAccurateSaleRateInfo returns (its writes to the page are not modelled). */
  function SetAccurateSaleRateInfo(location: Option<string>): bool
  {
    match ExtractDistrict(location)
    case Some(d) => d in RegionalData
    case None => false
  }

  /** true exactly when the extracted district has curated data, and then the trimmed
      location names that district. */
  lemma SaleRateInfoApplies(location: Option<string>)
    ensures SetAccurateSaleRateInfo(location)
        <==> ExtractDistrict(location).Some? && ExtractDistrict(location).value in RegionalData
    ensures SetAccurateSaleRateInfo(location) ==>
              !Falsy(location) && exists d :: d in RegionalData && Contains(JsTrim(location.value), d)
  {
    CuratedFound(location, AllDistricts, RegionalData);
  }

  /** The same for any name list and any curated table. */
  lemma CuratedFound(location: Option<string>, names: seq<string>, data: map<string, RateInfo>)
    ensures (match ExtractDistrictFrom(location, names) case Some(d) => d in data case None => false)
        <==> ExtractDistrictFrom(location, names).Some? && ExtractDistrictFrom(location, names).value in data
    ensures (match ExtractDistrictFrom(location, names) case Some(d) => d in data case None => false) ==>
              !Falsy(location) && exists d :: d in data && Contains(JsTrim(location.value), d)
  {
    var r := ExtractDistrictFrom(location, names);
    if r.Some? && r.value in data {
      DistrictFound(location, names);
      var k :| 0 <= k < |names| && names[k] == r.value && Contains(JsTrim(location.value), names[k]);
    }
  }

  /** An address naming none of the curated districts gives false. */
  lemma GangdongHasNoCuratedRate(s: string)
    requires s == "서울시 강동구"
    ensures !SetAccurateSaleRateInfo(Some(s))
  {
    TrimNoop(s, IsJsSpace);
    forall d | d in RegionalData
      ensures !Contains(s, d)
    {
      assert d[1] in "남운초파천";
      if Contains(s, d) {
        ContainsHasChar(s, d, 1);
      }
    }
    SaleRateInfoApplies(Some(s));
  }

  datatype Comparison = Conflict | Match | NoData

  /** Math.abs(a - b) > 1 on doubles: NaN compares false; an infinite difference exceeds 1. */
  predicate DiffExceedsOne(a: Num, b: Num)
  {
    match (a, b)
    case (Fin(x), Fin(y)) => x - y > 1.0 || y - x > 1.0
    case (Fin(_), PosInf) => true
    case (Fin(_), NegInf) => true
    case (PosInf, Fin(_)) => true
    case (NegInf, Fin(_)) => true
    case (PosInf, NegInf) => true
    case (NegInf, PosInf) => true
    case _ => false
  }

  /** compareDataSources on the two parseFloat'ed rates; None stands for a missing object. */
  function CompareDataSources(apiRate: Option<Num>, hardcodedRate: Option<Num>): (r: Comparison)
    ensures r == NoData <==> apiRate.None? || hardcodedRate.None?
    ensures r == Conflict ==> !apiRate.value.IsNaN() && !hardcodedRate.value.IsNaN()
  {
    if apiRate.Some? && hardcodedRate.Some? then
      if DiffExceedsOne(apiRate.value, hardcodedRate.value) then Conflict else Match
    else NoData
  }

  /** Two finite rates conflict exactly when they differ by more than one point; a rate that
      does not parse (NaN) always matches. */
  lemma CompareRates(a: real, b: real)
    ensures CompareDataSources(Some(Fin(a)), Some(Fin(b))) == Conflict <==> (a - b > 1.0 || b - a > 1.0)
    ensures CompareDataSources(Some(Fin(a)), Some(Fin(b))) == CompareDataSources(Some(Fin(b)), Some(Fin(a)))
    ensures CompareDataSources(Some(NaN), Some(Fin(b))) == Match
    ensures CompareDataSources(Some(PosInf), Some(PosInf)) == Match
  {
  }
}
