// The synthetic tier of auction_crawler.py: a record generated from the case
// number alone, the fixed simulation record used when that fails, and the
// five-record search sample. The clock enters only as the day offset of the
// auction date and as whether "today + 7 days" is a valid day of this month.

module AuctionCrawler {
  import opened Wrappers
  import opened Text
  import CaseNumber
  import opened PriceConsensus

  const Regions: seq<string> := ["서울시 강남구", "서울시 서초구", "서울시 송파구", "서울시 강동구",
                                 "서울시 마포구", "서울시 용산구", "서울시 중구", "서울시 종로구"]
  const PropertyTypes: seq<string> := ["아파트", "단독주택", "오피스텔", "상가", "토지"]
  const Courts: seq<string> := ["서울중앙지방법원", "서울남부지방법원", "서울북부지방법원",
                                "서울동부지방법원", "서울서부지방법원"]

  datatype Details = Details(size: nat, floor: nat, direction: string, parking: string, age: nat)

  datatype AuctionData =
    | Synthetic(caseNumber: string, court: string, propertyType: string, location: string,
                marketPrice: int, appraisalPrice: int, minimumBid: int, failedCount: nat,
                renovationCost: int, status: string, details: Details, auctionDayOffset: nat)
    | Simulation(caseNumber: string, court: string, propertyType: string, location: string,
                 marketPrice: int, appraisalPrice: int, minimumBid: int, failedCount: nat,
                 renovationCost: int)

  /** crawl_real_auction_data for a case text and its serial n: every field is chosen by n. */
  function SyntheticOf(caseText: string, n: nat): AuctionData
  {
    var market := 200000000 + (n % 100) * 1000000;
    var appraisal := Tenths(market, 9);
    var failed := n % 4;
    Synthetic(caseText, Courts[n % 5], PropertyTypes[n % 5], Regions[n % 8],
              market, appraisal, Tenths(appraisal, 7), failed, 10000000,
              if failed < 3 then "진행중" else "유찰",
              Details(60 + n % 40, n % 20 + 1, if n % 2 == 0 then "남향" else "동향",
                      if n % 3 != 0 then "가능" else "불가능", n % 20 + 5),
              n % 30)
  }

  function SyntheticRecord(c: CaseNumber.CaseNumber): AuctionData
    requires c.Valid()
  {
    SyntheticOf(c.Text(), DigitsValue(c.number))
  }

  /** The generated figures: market price in [2억, 2.99억] in whole millions, appraisal 0.9 of it,
      minimum bid the floor of 0.7 of the appraisal, and 유찰 exactly from the third failure. */
  lemma SyntheticFigures(c: CaseNumber.CaseNumber)
    requires c.Valid()
    ensures var r := SyntheticRecord(c);
            var n := DigitsValue(c.number);
            && r.caseNumber == c.Text()
            && 200000000 <= r.marketPrice <= 299000000 && r.marketPrice % 1000000 == 0
            && r.appraisalPrice * 10 == r.marketPrice * 9
            && r.minimumBid * 10 <= r.appraisalPrice * 7 < r.minimumBid * 10 + 10
            && 0 < r.minimumBid < r.appraisalPrice < r.marketPrice
            && r.failedCount == n % 4
            && (r.status == "유찰" <==> r.failedCount >= 3)
            && r.location in Regions && r.propertyType in PropertyTypes && r.court in Courts
  {
    var n := DigitsValue(c.number);
    SyntheticPrices(n);
    SyntheticChoices(c.Text(), n);
  }

  lemma SyntheticPrices(n: nat)
    ensures var market := 200000000 + (n % 100) * 1000000;
            var appraisal := Tenths(market, 9);
            && 200000000 <= market <= 299000000 && market % 1000000 == 0
            && appraisal * 10 == market * 9
            && Tenths(appraisal, 7) * 10 <= appraisal * 7 < Tenths(appraisal, 7) * 10 + 10
            && 0 < Tenths(appraisal, 7) < appraisal < market
  {
    var market := 200000000 + (n % 100) * 1000000;
    assert market * 9 % 10 == 0;
    TenthsOrdered(Tenths(market, 9));
  }

  lemma SyntheticChoices(caseText: string, n: nat)
    ensures var r := SyntheticOf(caseText, n);
            && r.caseNumber == caseText && r.failedCount == n % 4
            && (r.status == "유찰" <==> r.failedCount >= 3)
            && r.location in Regions && r.propertyType in PropertyTypes && r.court in Courts
  {
  }

  /** Serials 600 apart give the same record. */
  lemma SyntheticShift(caseText: string, m: nat)
    ensures SyntheticOf(caseText, m + 600) == SyntheticOf(caseText, m)
  {
    ResidueShift(m);
  }

  lemma ResidueShift(m: nat)
    ensures (m + 600) % 100 == m % 100 && (m + 600) % 40 == m % 40 && (m + 600) % 30 == m % 30
    ensures (m + 600) % 20 == m % 20 && (m + 600) % 8 == m % 8 && (m + 600) % 5 == m % 5
    ensures (m + 600) % 4 == m % 4 && (m + 600) % 3 == m % 3 && (m + 600) % 2 == m % 2
  {
    assert m + 600 == m + 100 * 6 == m + 40 * 15 == m + 30 * 20 == m + 20 * 30 == m + 8 * 75;
  }

  /** The record depends on the serial only through its residue modulo 600. */
  lemma {:induction false} SyntheticPeriodic(caseText: string, n: nat)
    ensures SyntheticOf(caseText, n) == SyntheticOf(caseText, n % 600)
    decreases n
  {
    if n >= 600 {
      var m: nat := n - 600;
      var r: nat := n % 600;
      assert m % 600 == r;
      calc {
        SyntheticOf(caseText, n);
        { SyntheticShift(caseText, m); }
        SyntheticOf(caseText, m);
        { SyntheticPeriodic(caseText, m); }
        SyntheticOf(caseText, r);
      }
    } else {
      assert n % 600 == n;
    }
  }

  datatype PyError = ValueError

  /** Python int() on a short text: surrounding whitespace, an optional sign, digits with
      single underscores between them; anything else raises ValueError. */
  function PyInt(s: string): Result<int, PyError>
  {
    var t := PyStrip(s);
    var negative := |t| > 0 && t[0] == '-';
    var body := if |t| > 0 && (t[0] == '+' || t[0] == '-') then t[1..] else t;
    if IntBody(body) then
      var digits := RemoveChar(body, '_');
      assert AllDigits(digits) by {
        RemoveCharKeeps(body, '_');
      }
      var v: int := DigitsValue(digits);
      Ok(if negative then -v else v)
    else Err(ValueError)
  }

  /** Digits with single underscores between them, as int() accepts after the sign. */
  predicate IntBody(body: string)
  {
    |body| > 0 && IsDigit(body[0]) && IsDigit(body[|body| - 1])
    && (forall i :: 0 <= i < |body| ==> IsDigit(body[i]) || body[i] == '_')
    && (forall i :: 0 <= i < |body| - 1 ==> !(body[i] == '_' && body[i + 1] == '_'))
  }

  lemma {:induction false} RemoveCharKeeps(s: string, c: char)
    requires forall i :: 0 <= i < |s| ==> IsDigit(s[i]) || s[i] == c
    ensures AllDigits(RemoveChar(s, c))
  {
    if |s| > 0 {
      RemoveCharKeeps(s[1..], c);
    }
  }

  /** A run of digits reads as its value. */
  lemma PyIntDigits(s: string)
    requires |s| > 0 && AllDigits(s)
    ensures PyInt(s) == Ok(DigitsValue(s))
  {
    assert !IsPySpace(s[0]) && !IsPySpace(s[|s| - 1]);
    TrimNoop(s, IsPySpace);
    assert PyStrip(s) == s;
    assert s[0] != '+' && s[0] != '-';
    assert forall i :: 0 <= i < |s| ==> IsDigit(s[i]) || s[i] == '_';
    assert forall i :: 0 <= i < |s| - 1 ==> !(s[i] == '_' && s[i + 1] == '_');
    RemoveCharNone(s, '_');
    PyIntOf(s, s);
  }

  /** PyInt of a stripped, unsigned, well-formed run whose underscores are already gone. */
  lemma PyIntOf(s: string, digits: string)
    requires PyStrip(s) == s && |s| > 0 && s[0] != '+' && s[0] != '-'
    requires IsDigit(s[0]) && IsDigit(s[|s| - 1])
    requires forall i :: 0 <= i < |s| ==> IsDigit(s[i]) || s[i] == '_'
    requires forall i :: 0 <= i < |s| - 1 ==> !(s[i] == '_' && s[i + 1] == '_')
    requires RemoveChar(s, '_') == digits && AllDigits(digits)
    ensures PyInt(s) == Ok(DigitsValue(digits))
  {
  }

  lemma {:induction false} RemoveCharNone(s: string, c: char)
    requires c !in s
    ensures RemoveChar(s, c) == s
  {
    if |s| > 0 {
      RemoveCharNone(s[1..], c);
      assert s == [s[0]] + s[1..];
    }
  }

  /** The fixed figures of the simulation record: recent (year ≥ 2024) or older. */
  function SimulationRecord(caseNumber: string, recent: bool): AuctionData
  {
    Simulation(caseNumber, "서울중앙지방법원", "아파트", "서울시 강남구",
               if recent then 250000000 else 220000000,
               if recent then 243000000 else 210000000,
               if recent then 170100000 else 147000000,
               1, 10000000)
  }

  /** get_simulation_data as written: int() of the first four characters may raise. */
  function SimulationDataAsWritten(caseNumber: string): Result<AuctionData, PyError>
  {
    var year := if |caseNumber| >= 4 then caseNumber[..4] else "2024";
    match PyInt(year)
    case Ok(y) => Ok(SimulationRecord(caseNumber, y >= 2024))
    case Err(e) => Err(e)
  }

  /** get_simulation_data with a year that does not read as a number taken as 2024,
      the value it already uses for texts shorter than four characters. */
  function SimulationData(caseNumber: string): AuctionData
  {
    var year := if |caseNumber| >= 4 then caseNumber[..4] else "2024";
    var y := match PyInt(year) case Ok(y) => y case Err(_) => 2024;
    SimulationRecord(caseNumber, y >= 2024)
  }

  /** get_auction_data as written: a case number that does not parse falls back to the
      simulation record, whose own year parse can raise out of the handler. */
  function GetAuctionDataAsWritten(caseNumber: string, weekAheadInMonth: bool): Result<AuctionData, PyError>
  {
    match CaseNumber.Parse(caseNumber)
    case Some(c) => if weekAheadInMonth then Ok(SyntheticRecord(c)) else SimulationDataAsWritten(caseNumber)
    case None => SimulationDataAsWritten(caseNumber)
  }

  /** get_auction_data with the corrected fallback: always a record. A parsed case number
      gives the synthetic record unless building the unused mock record fails on the
      date arithmetic (today + 7 outside this month). */
  function GetAuctionData(caseNumber: string, weekAheadInMonth: bool): (r: AuctionData)
    ensures StartsWith(caseNumber, r.caseNumber)
    ensures r.Simulation? ==> r.caseNumber == caseNumber
  {
    match CaseNumber.Parse(caseNumber)
    case Some(c) =>
      if weekAheadInMonth then SyntheticRecord(c) else SimulationData(caseNumber)
    case None => SimulationData(caseNumber)
  }

  /** A malformed case number never yields nothing: it yields the simulation record. */
  lemma MalformedFallsBack(caseNumber: string, weekAheadInMonth: bool)
    requires CaseNumber.Parse(caseNumber).None?
    ensures GetAuctionData(caseNumber, weekAheadInMonth) == SimulationData(caseNumber)
    ensures GetAuctionData(caseNumber, weekAheadInMonth).Simulation?
  {
  }

  /** A well-formed case number gives the synthetic record whenever the date arithmetic
      succeeds; its year digits always read, so the written code cannot raise here. */
  lemma WellFormedIsSynthetic(caseNumber: string, weekAheadInMonth: bool)
    requires CaseNumber.Parse(caseNumber).Some?
    ensures weekAheadInMonth ==> GetAuctionData(caseNumber, weekAheadInMonth).Synthetic?
    ensures GetAuctionDataAsWritten(caseNumber, weekAheadInMonth) == Ok(GetAuctionData(caseNumber, weekAheadInMonth))
  {
    CaseNumber.ParseAccepts(caseNumber);
    PyIntDigits(caseNumber[..4]);
  }

  /** Wherever the written code returns a record it is the corrected one. */
  lemma AsWrittenAgrees(caseNumber: string, weekAheadInMonth: bool)
    requires GetAuctionDataAsWritten(caseNumber, weekAheadInMonth).Ok?
    ensures GetAuctionDataAsWritten(caseNumber, weekAheadInMonth).value == GetAuctionData(caseNumber, weekAheadInMonth)
  {
  }

  /** A text whose first four characters are not a number makes the written code raise. */
  lemma NonNumericYearRaises()
    ensures GetAuctionDataAsWritten("abcd타경1", true) == Err(ValueError)
    ensures GetAuctionData("abcd타경1", true) == SimulationRecord("abcd타경1", true)
  {
    var s := "abcd타경1";
    assert !IsDigit(s[..4][0]);
    assert !IsPySpace(s[..4][0]) && !IsPySpace(s[..4][3]);
    TrimNoop(s[..4], IsPySpace);
  }

  /** Simulation figures by year: 2024 or later is recent. */
  lemma SimulationYears(caseNumber: string)
    requires |caseNumber| >= 4 && AllDigits(caseNumber[..4])
    ensures var y := DigitsValue(caseNumber[..4]);
            var r := SimulationData(caseNumber);
            && (y >= 2024 ==> r.marketPrice == 250000000 && r.appraisalPrice == 243000000 && r.minimumBid == 170100000)
            && (y < 2024 ==> r.marketPrice == 220000000 && r.appraisalPrice == 210000000 && r.minimumBid == 147000000)
  {
    PyIntDigits(caseNumber[..4]);
  }

  // ---------------------------------------------------------------------
  // search_auctions

  /** The optional court and property type of the filters dict. */
  datatype Filters = Filters(court: Option<string>, propertyType: Option<string>)

  datatype Listing = Listing(caseNumber: string, court: string, propertyType: string, location: string,
                             marketPrice: int, appraisalPrice: int, minimumBid: int, failedCount: nat)

  function SearchListing(filters: Filters, i: nat): Listing
  {
    Listing("2024타경" + Numeral(10000 + i),
            filters.court.GetOr("서울중앙지방법원"),
            filters.propertyType.GetOr("아파트"),
            "서울시 강남구 " + Numeral(i + 1) + "동",
            250000000 + i * 10000000, 243000000 + i * 10000000, 170100000 + i * 10000000, i)
  }

  method SearchAuctions(filters: Filters) returns (results: seq<Listing>)
    ensures |results| == 5
    ensures forall i :: 0 <= i < 5 ==> results[i] == SearchListing(filters, i)
  {
    results := [];
    var i := 0;
    while i < 5
      invariant 0 <= i <= 5 && |results| == i
      invariant forall k :: 0 <= k < i ==> results[k] == SearchListing(filters, k)
    {
      results := results + [SearchListing(filters, i)];
      i := i + 1;
    }
  }

  /** The i-th listing's case number reads back as 2024타경(10000+i); prices step by 10,000,000. */
  lemma SearchListingSpec(filters: Filters, i: nat)
    ensures var l := SearchListing(filters, i);
            && CaseNumber.Parse(l.caseNumber) == Some(CaseNumber.CaseNumber("2024", Numeral(10000 + i)))
            && DigitsValue(Numeral(10000 + i)) == 10000 + i
            && l.failedCount == i
            && SearchListing(filters, i + 1).marketPrice == l.marketPrice + 10000000
            && SearchListing(filters, i + 1).minimumBid == l.minimumBid + 10000000
            && (filters.court.None? ==> l.court == "서울중앙지방법원")
  {
    ListingCaseParses(Numeral(10000 + i));
    NumeralValue(10000 + i);
  }

  lemma ListingCaseParses(serial: string)
    requires AllDigits(serial) && |serial| >= 1
    ensures CaseNumber.Parse("2024타경" + serial) == Some(CaseNumber.CaseNumber("2024", serial))
  {
    var c := CaseNumber.CaseNumber("2024", serial);
    assert c.Text() + "" == "2024타경" + serial;
    CaseNumber.ParseText(c, "");
  }
}
