// The court-auction crawler of real_court_auction_crawler.py: the ordered
// first-success provider chains, the table-row rules that turn an auction
// listing page into a record, the site-search record, and the case-number
// and price parsers. Pages are given as their tables of rows of cell texts;
// fetching them is not modelled.

module CourtCrawler {
  import opened Wrappers
  import opened Text
  import CaseNumber
  import opened PriceConsensus

  // ---------------------------------------------------------------------
  // Case numbers

  datatype CaseDetails = CaseDetails(year: string, caseType: string, number: string,
                                     courtCode: string, courtName: string)

  /** parse_case_number: the shared pattern plus the court code and display name. */
  function ParseCaseNumber(s: string): Option<CaseDetails>
  {
    match CaseNumber.Parse(s)
    case None => None
    case Some(c) =>
      Some(CaseDetails(c.year, CaseNumber.CaseType, c.number,
                       c.year + CaseNumber.CaseType,
                       c.year + "년 " + CaseNumber.CaseType + " " + c.number + "호"))
  }

  lemma ParseCaseNumberSpec(s: string)
    ensures ParseCaseNumber(s).Some?
        <==> |s| >= 7 && AllDigits(s[..4]) && s[4..6] == CaseNumber.CaseType && IsDigit(s[6])
    ensures ParseCaseNumber(s).Some? ==>
              var d := ParseCaseNumber(s).value;
              && |d.year| == 4 && AllDigits(d.year) && |d.number| >= 1 && AllDigits(d.number)
              && d.courtCode == d.year + "타경"
              && StartsWith(s, d.year + d.caseType + d.number)
  {
    CaseNumber.ParseAccepts(s);
  }

  // ---------------------------------------------------------------------
  // Prices

  /** The unit the text names, tested 억, then 만, then 천. */
  function UnitFactor(text: string): nat
  {
    if '억' in text then 100000000
    else if '만' in text then 10000
    else if '천' in text then 1000
    else 1
  }

  /** parse_price as written: all the digits read as one number, times one unit. */
  function ParsePriceAsWritten(text: string): nat
  {
    var digits := KeepDigits(text);
    if |digits| == 0 then 0 else DigitsValue(digits) * UnitFactor(text)
  }

  predicate IsUnit(c: char)
  {
    c == '억' || c == '만' || c == '천'
  }

  /**
   * The running reading of a Korean amount: `total` holds what 억 and 만 have
   * closed, `group` what 천 has scaled inside the current 만-group, `current`
   * the digits read since the last unit.
   */
  datatype Tally = Tally(total: nat, group: nat, current: nat)

  function Step(t: Tally, c: char): Tally
  {
    if IsDigit(c) then t.(current := t.current * 10 + DigitValue(c))
    else if c == '천' then t.(group := t.group + t.current * 1000, current := 0)
    else if c == '만' then Tally(t.total + (t.group + t.current) * 10000, 0, 0)
    else if c == '억' then Tally(t.total + (t.group + t.current) * 100000000, 0, 0)
    else t
  }

  function TallyOf(text: string): Tally
  {
    if |text| == 0 then Tally(0, 0, 0) else Step(TallyOf(text[..|text| - 1]), text[|text| - 1])
  }

  /** The price the text names, each digit group scaled by the unit that follows it. */
  function ParsePrice(text: string): nat
  {
    var t := TallyOf(text);
    t.total + t.group + t.current
  }

  predicate NoUnits(s: string)
  {
    forall i :: 0 <= i < |s| ==> !IsUnit(s[i])
  }

  lemma {:induction false} TallyOfPlain(a: string)
    requires NoUnits(a)
    ensures TallyOf(a) == Tally(0, 0, DigitsValue(KeepDigits(a)))
  {
    if |a| > 0 {
      var init, last := a[..|a| - 1], a[|a| - 1];
      assert a == init + [last];
      TallyOfPlain(init);
      KeepDigitsAppend(init, [last]);
      assert KeepDigits([last]) == if IsDigit(last) then [last] else "";
      if IsDigit(last) {
        var d := KeepDigits(init) + [last];
        assert d[..|d| - 1] == KeepDigits(init);
      } else {
        assert KeepDigits(init) + "" == KeepDigits(init);
      }
    }
  }

  lemma {:induction false} TallyIgnores(a: string, b: string)
    requires forall i :: 0 <= i < |b| ==> !IsUnit(b[i]) && !IsDigit(b[i])
    ensures TallyOf(a + b) == TallyOf(a)
  {
    if |b| > 0 {
      var ab := a + b;
      assert ab[..|ab| - 1] == a + b[..|b| - 1];
      TallyIgnores(a, b[..|b| - 1]);
    } else {
      assert a + b == a;
    }
  }

  /** On text without unit characters the two readings agree: digits only. */
  lemma PlainPriceAgrees(text: string)
    requires NoUnits(text)
    ensures ParsePrice(text) == ParsePriceAsWritten(text)
    ensures ParsePrice(text) == if |KeepDigits(text)| == 0 then 0 else DigitsValue(KeepDigits(text))
  {
    TallyOfPlain(text);
  }

  /** The value of a unit character. */
  function UnitValue(u: char): nat
    requires IsUnit(u)
  {
    if u == '억' then 100000000 else if u == '만' then 10000 else 1000
  }

  lemma TallySingleUnit(a: string, u: char, b: string)
    requires NoUnits(a) && IsUnit(u)
    requires forall i :: 0 <= i < |b| ==> !IsUnit(b[i]) && !IsDigit(b[i])
    ensures ParsePrice(a + [u] + b) == DigitsValue(KeepDigits(a)) * UnitValue(u)
  {
    TallyOfPlain(a);
    assert (a + [u])[..|a|] == a;
    var t := TallyOf(a + [u]);
    assert t == Step(Tally(0, 0, DigitsValue(KeepDigits(a))), u);
    assert t.total + t.group + t.current == DigitsValue(KeepDigits(a)) * UnitValue(u);
    TallyIgnores(a + [u], b);
  }

  lemma UnitsOfSingleUnit(a: string, u: char, b: string)
    requires NoUnits(a) && IsUnit(u)
    requires forall i :: 0 <= i < |b| ==> !IsUnit(b[i]) && !IsDigit(b[i])
    ensures KeepDigits(a + [u] + b) == KeepDigits(a)
    ensures UnitFactor(a + [u] + b) == UnitValue(u)
  {
    KeepDigitsAppend(a + [u], b);
    KeepDigitsAppend(a, [u]);
    KeepDigitsEmpty(b);
    assert KeepDigits([u]) == "";
    assert KeepDigits(a) + "" + "" == KeepDigits(a);
    OnlyUnit(a, u, b);
  }

  /** The one unit character is the only one in the text. */
  lemma OnlyUnit(a: string, u: char, b: string)
    requires NoUnits(a) && IsUnit(u)
    requires forall i :: 0 <= i < |b| ==> !IsUnit(b[i]) && !IsDigit(b[i])
    ensures UnitFactor(a + [u] + b) == UnitValue(u)
  {
    var text := a + [u] + b;
    assert u in text;
    forall c | IsUnit(c) && c != u
      ensures c !in text
    {
      NoUnitIn(a, c);
      NoUnitIn(b, c);
    }
  }

  lemma NoUnitIn(s: string, c: char)
    requires forall i :: 0 <= i < |s| ==> !IsUnit(s[i])
    requires IsUnit(c)
    ensures c !in s
  {
  }

  /** One unit after the digits ("5,000만원", "2억"): the two readings agree. */
  lemma SingleUnitAgrees(a: string, u: char, b: string)
    requires NoUnits(a) && IsUnit(u)
    requires forall i :: 0 <= i < |b| ==> !IsUnit(b[i]) && !IsDigit(b[i])
    ensures ParsePrice(a + [u] + b) == ParsePriceAsWritten(a + [u] + b)
  {
    TallySingleUnit(a, u, b);
    UnitsOfSingleUnit(a, u, b);
  }

  /** Mixed units: as written the digit groups run together; read by unit they add up. */
  lemma MixedUnitsAsWritten()
    ensures ParsePriceAsWritten("1억 5000만") == 1500000000000
    ensures ParsePriceAsWritten("3천만") == 30000
  {
    MixedDigits();
    FifteenThousand();
    assert "1억 5000만"[1] == '억';
    ThousandTenThousand();
  }

  lemma MixedDigits()
    ensures KeepDigits("1억 5000만") == "15000"
  {
  }

  lemma FifteenThousand()
    ensures DigitsValue("15000") == 15000
  {
    var d := "15000";
    assert DigitsValue(d[..1]) == 1;
    assert d[..2][..1] == d[..1];
    assert DigitsValue(d[..2]) == 15;
    assert d[..3][..2] == d[..2];
    assert DigitsValue(d[..3]) == 150;
    assert d[..4][..3] == d[..3];
    assert DigitsValue(d[..4]) == 1500;
    assert d[..5][..4] == d[..4];
    assert d[..5] == d;
  }

  lemma ThousandTenThousand()
    ensures ParsePriceAsWritten("3천만") == 30000
  {
    var m := "3천만";
    assert KeepDigits(m) == "3";
    assert m[2] == '만' && m[1] == '천';
    assert '억' !in m;
  }

  lemma MixedUnitsRead()
    ensures ParsePrice("1억 5000만") == 150000000
    ensures ParsePrice("3천만") == 30000000
  {
    var s := "1억 5000만";
    assert s[..1][..0] == "";
    assert TallyOf(s[..1]) == Tally(0, 0, 1);
    assert s[..2][..1] == s[..1];
    assert TallyOf(s[..2]) == Tally(100000000, 0, 0);
    assert s[..3][..2] == s[..2];
    assert TallyOf(s[..3]) == Tally(100000000, 0, 0);
    assert s[..4][..3] == s[..3];
    assert TallyOf(s[..4]) == Tally(100000000, 0, 5);
    assert s[..5][..4] == s[..4];
    assert TallyOf(s[..5]) == Tally(100000000, 0, 50);
    assert s[..6][..5] == s[..5];
    assert TallyOf(s[..6]) == Tally(100000000, 0, 500);
    assert s[..7][..6] == s[..6];
    assert TallyOf(s[..7]) == Tally(100000000, 0, 5000);
    assert s[..8][..7] == s[..7];
    assert s[..8] == s;
    var m := "3천만";
    assert m[..1][..0] == "";
    assert TallyOf(m[..1]) == Tally(0, 0, 3);
    assert m[..2][..1] == m[..1];
    assert TallyOf(m[..2]) == Tally(0, 3000, 0);
    assert m[..3][..2] == m[..2];
    assert m[..3] == m;
  }

  // ---------------------------------------------------------------------
  // Records

  datatype AuctionRecord = AuctionRecord(
    caseNumber: string,
    marketPrice: int,
    appraisalPrice: int,
    minimumBid: int,
    location: Option<string>,
    source: string)

  /** A site search hit: one price read by parse_price as written, with 0.9 and 0.7 of it as
      appraisal and minimum. */
  function SiteRecord(caseNumber: string, priceText: string, source: string): (r: AuctionRecord)
    ensures r.marketPrice == ParsePriceAsWritten(priceText)
    ensures 0 <= r.minimumBid <= r.appraisalPrice <= r.marketPrice
    ensures r.appraisalPrice * 10 <= r.marketPrice * 9 < r.appraisalPrice * 10 + 10
    ensures r.minimumBid * 10 <= r.marketPrice * 7 < r.minimumBid * 10 + 10
  {
    var price := ParsePriceAsWritten(priceText);
    TenthsOrdered(price);
    AuctionRecord(caseNumber, price, Tenths(price, 9), Tenths(price, 7), None, source)
  }

  // ---------------------------------------------------------------------
  // First-success chains

  /** One provider call: a record, nothing (None or an empty result), or an exception. */
  datatype Attempt<T> = Found(value: T) | NotFound | Raised

  /** Try the providers in order; the first record wins, an exception ends the chain with None. */
  function FirstSuccess<T>(providers: seq<string -> Attempt<T>>, caseNumber: string): Option<T>
  {
    if |providers| == 0 then None
    else match providers[0](caseNumber)
      case Found(v) => Some(v)
      case NotFound => FirstSuccess(providers[1..], caseNumber)
      case Raised => None
  }

  /** How many providers the chain calls before it stops. */
  function Consulted<T>(providers: seq<string -> Attempt<T>>, caseNumber: string): (n: nat)
    ensures n <= |providers|
  {
    if |providers| == 0 then 0
    else if providers[0](caseNumber).NotFound? then 1 + Consulted(providers[1..], caseNumber)
    else 1
  }

  /** The chain returns the record of the first provider that has one, provided every
      provider before it found nothing; otherwise it returns None. */
  lemma {:induction false} FirstSuccessSpec<T>(providers: seq<string -> Attempt<T>>, caseNumber: string, k: int)
    requires 0 <= k < |providers|
    requires forall j :: 0 <= j < k ==> providers[j](caseNumber).NotFound?
    ensures providers[k](caseNumber).Found? ==> FirstSuccess(providers, caseNumber) == Some(providers[k](caseNumber).value)
    ensures providers[k](caseNumber).Found? ==> Consulted(providers, caseNumber) == k + 1
    ensures providers[k](caseNumber).Raised? ==> FirstSuccess(providers, caseNumber) == None
  {
    if k > 0 {
      FirstSuccessSpec(providers[1..], caseNumber, k - 1);
    }
  }

  /** None exactly when no provider before the first exception found a record. */
  lemma {:induction false} FirstSuccessNone<T>(providers: seq<string -> Attempt<T>>, caseNumber: string)
    ensures FirstSuccess(providers, caseNumber).None?
        <==> forall j :: 0 <= j < Consulted(providers, caseNumber) ==> !providers[j](caseNumber).Found?
  {
    if |providers| > 0 && providers[0](caseNumber).NotFound? {
      FirstSuccessNone(providers[1..], caseNumber);
      var n := Consulted(providers, caseNumber);
      assert forall j :: 1 <= j < n ==> providers[j] == providers[1..][j - 1];
    }
  }

  /** Providers after the one that ends the chain are never called: replacing them
      changes nothing. */
  lemma {:induction false} LaterProvidersUnused<T>(p: seq<string -> Attempt<T>>, q: seq<string -> Attempt<T>>,
                                                   caseNumber: string)
    requires |p| == |q| && p[..Consulted(p, caseNumber)] == q[..Consulted(p, caseNumber)]
    ensures FirstSuccess(p, caseNumber) == FirstSuccess(q, caseNumber)
    ensures Consulted(p, caseNumber) == Consulted(q, caseNumber)
  {
    if |p| > 0 {
      assert p[0] == p[..Consulted(p, caseNumber)][0];
      if p[0](caseNumber).NotFound? {
        var n := Consulted(p, caseNumber);
        assert p[1..][..n - 1] == p[..n][1..];
        assert q[1..][..n - 1] == q[..n][1..];
        LaterProvidersUnused(p[1..], q[1..], caseNumber);
      }
    }
  }

  /** The six network providers behind get_real_auction_data. */
  datatype Providers<T> = Providers(
    direct: string -> Attempt<T>,
    supremeCourt: string -> Attempt<T>,
    regionalCourt: string -> Attempt<T>,
    estate114: string -> Attempt<T>,
    zigbang: string -> Attempt<T>,
    naver: string -> Attempt<T>)

  /** crawl_real_estate_sites: 부동산114, then 직방, then 네이버. */
  function CrawlRealEstateSites<T>(p: Providers<T>, caseNumber: string): Option<T>
  {
    FirstSuccess([p.estate114, p.zigbang, p.naver], caseNumber)
  }

  /** crawl_real_estate_sites seen as the fourth step of the outer chain. */
  function SitesStep<T>(p: Providers<T>): string -> Attempt<T>
  {
    caseNumber =>
      match CrawlRealEstateSites(p, caseNumber)
      case Some(v) => Found(v)
      case None => NotFound
  }

  /** get_real_auction_data: direct site, supreme court, regional court, real-estate sites. */
  function GetRealAuctionData<T>(p: Providers<T>, caseNumber: string): Option<T>
  {
    FirstSuccess([p.direct, p.supremeCourt, p.regionalCourt, SitesStep(p)], caseNumber)
  }

  /** A record from the direct site is returned without consulting any other provider. */
  lemma DirectHitWins<T>(p: Providers<T>, q: Providers<T>, caseNumber: string)
    requires p.direct(caseNumber).Found? && q.direct == p.direct
    ensures GetRealAuctionData(p, caseNumber) == Some(p.direct(caseNumber).value)
    ensures GetRealAuctionData(q, caseNumber) == GetRealAuctionData(p, caseNumber)
  {
  }

  /** The sites are reached only when the three court providers all found nothing;
      then the outer chain returns what the sites chain returns. */
  lemma SitesLast<T>(p: Providers<T>, caseNumber: string)
    requires p.direct(caseNumber).NotFound? && p.supremeCourt(caseNumber).NotFound?
    requires p.regionalCourt(caseNumber).NotFound?
    ensures GetRealAuctionData(p, caseNumber) == CrawlRealEstateSites(p, caseNumber)
  {
    var chain := [p.direct, p.supremeCourt, p.regionalCourt, SitesStep(p)];
    assert chain[1..] == [p.supremeCourt, p.regionalCourt, SitesStep(p)];
    assert chain[1..][1..] == [p.regionalCourt, SitesStep(p)];
    assert chain[1..][1..][1..] == [SitesStep(p)];
    assert [SitesStep(p)][1..] == [];
    assert FirstSuccess(chain, caseNumber) == FirstSuccess(chain[1..], caseNumber);
    assert FirstSuccess(chain[1..], caseNumber) == FirstSuccess(chain[1..][1..], caseNumber);
    assert FirstSuccess(chain[1..][1..], caseNumber) == FirstSuccess([SitesStep(p)], caseNumber);
    assert SitesStep(p)(caseNumber) == match CrawlRealEstateSites(p, caseNumber)
      case Some(v) => Found(v)
      case None => NotFound;
  }

  /** Court providers and the sites all without a record (or a court step raising) give None. */
  lemma AllMissIsNone<T>(p: Providers<T>, caseNumber: string)
    requires !p.direct(caseNumber).Found? && !p.supremeCourt(caseNumber).Found?
    requires !p.regionalCourt(caseNumber).Found?
    requires CrawlRealEstateSites(p, caseNumber).None?
    ensures GetRealAuctionData(p, caseNumber).None?
  {
    var chain := [p.direct, p.supremeCourt, p.regionalCourt, SitesStep(p)];
    assert chain[1..] == [p.supremeCourt, p.regionalCourt, SitesStep(p)];
    assert chain[1..][1..] == [p.regionalCourt, SitesStep(p)];
    assert chain[1..][1..][1..] == [SitesStep(p)];
    if p.direct(caseNumber).NotFound? {
      assert FirstSuccess(chain, caseNumber) == FirstSuccess(chain[1..], caseNumber);
      if p.supremeCourt(caseNumber).NotFound? {
        assert FirstSuccess(chain[1..], caseNumber) == FirstSuccess(chain[1..][1..], caseNumber);
        if p.regionalCourt(caseNumber).NotFound? {
          assert FirstSuccess(chain[1..][1..], caseNumber) == FirstSuccess([SitesStep(p)], caseNumber);
          assert [SitesStep(p)][1..] == [];
        }
      }
    }
  }

  // ---------------------------------------------------------------------
  // Listing tables

  datatype HtmlRow = HtmlRow(cells: seq<string>, text: string)
  datatype HtmlTable = HtmlTable(rows: seq<HtmlRow>)

  datatype HeaderKind = AppraisalHeader | MinimumHeader | PriceHeader | LocationHeader | OtherHeader

  predicate HasAny(h: string, keywords: seq<string>)
  {
    exists k | 0 <= k < |keywords| :: Contains(h, keywords[k])
  }

  /** The header's role, by the first keyword group the stripped text contains. */
  function KindOf(header: string): HeaderKind
  {
    var h := PyStrip(header);
    if HasAny(h, ["감정가", "감정액", "평가액"]) then AppraisalHeader
    else if HasAny(h, ["최저가", "최저입찰가", "시작가"]) then MinimumHeader
    else if HasAny(h, ["시세", "시장가", "거래가"]) then PriceHeader
    else if HasAny(h, ["소재지", "주소", "위치"]) then LocationHeader
    else OtherHeader
  }

  datatype Columns = Columns(price: Option<nat>, appraisal: Option<nat>, minimum: Option<nat>, location: Option<nat>)

  function Column(cols: Columns, kind: HeaderKind): Option<nat>
  {
    match kind
    case AppraisalHeader => cols.appraisal
    case MinimumHeader => cols.minimum
    case PriceHeader => cols.price
    case LocationHeader => cols.location
    case OtherHeader => None
  }

  function Classify(cols: Columns, i: nat, header: string): Columns
  {
    match KindOf(header)
    case AppraisalHeader => cols.(appraisal := Some(i))
    case MinimumHeader => cols.(minimum := Some(i))
    case PriceHeader => cols.(price := Some(i))
    case LocationHeader => cols.(location := Some(i))
    case OtherHeader => cols
  }

  const NoColumns := Columns(None, None, None, None)

  function ScanHeaders(cols: Columns, headers: seq<string>, i: nat): Columns
    requires i <= |headers|
    decreases |headers| - i
  {
    if i == |headers| then cols else ScanHeaders(Classify(cols, i, headers[i]), headers, i + 1)
  }

  function HeaderColumns(headers: seq<string>): Columns
  {
    ScanHeaders(NoColumns, headers, 0)
  }

  function KindsOf(headers: seq<string>): (kinds: seq<HeaderKind>)
    ensures |kinds| == |headers| && forall i :: 0 <= i < |headers| ==> kinds[i] == KindOf(headers[i])
  {
    seq(|headers|, i requires 0 <= i < |headers| => KindOf(headers[i]))
  }

  /** No header at index i or later has this kind. */
  predicate NoneOfKind(kinds: seq<HeaderKind>, i: nat, kind: HeaderKind)
  {
    forall k :: i <= k < |kinds| ==> kinds[k] != kind
  }

  /** j is the last header of this kind. */
  predicate LastOfKind(kinds: seq<HeaderKind>, j: int, kind: HeaderKind)
  {
    0 <= j < |kinds| && kinds[j] == kind && NoneOfKind(kinds, j + 1, kind)
  }

  lemma {:induction false} ScanHeadersColumn(cols: Columns, headers: seq<string>, i: nat, kind: HeaderKind)
    requires i <= |headers| && kind != OtherHeader
    decreases |headers| - i
    ensures NoneOfKind(KindsOf(headers), i, kind) ==> Column(ScanHeaders(cols, headers, i), kind) == Column(cols, kind)
    ensures forall j :: i <= j && LastOfKind(KindsOf(headers), j, kind)
                        ==> Column(ScanHeaders(cols, headers, i), kind) == Some(j)
  {
    if i < |headers| {
      var next := Classify(cols, i, headers[i]);
      ScanHeadersColumn(next, headers, i + 1, kind);
      assert ScanHeaders(cols, headers, i) == ScanHeaders(next, headers, i + 1);
      if KindOf(headers[i]) == kind {
        assert Column(next, kind) == Some(i);
      } else {
        assert Column(next, kind) == Column(cols, kind);
      }
    }
  }

  /** Each column is the last header of its kind, or absent when no header has that kind. */
  lemma HeaderColumnsLast(headers: seq<string>, kind: HeaderKind)
    requires kind != OtherHeader
    ensures NoneOfKind(KindsOf(headers), 0, kind) <==> Column(HeaderColumns(headers), kind) == None
    ensures forall j :: LastOfKind(KindsOf(headers), j, kind) ==> Column(HeaderColumns(headers), kind) == Some(j)
  {
    var kinds := KindsOf(headers);
    ScanHeadersColumn(NoColumns, headers, 0, kind);
    if !NoneOfKind(kinds, 0, kind) {
      var j := LastIndexOfKind(kinds, kind, |kinds|);
      assert LastOfKind(kinds, j, kind);
    }
  }

  /** The last index below n with this kind, given that one exists. */
  lemma {:induction false} LastIndexOfKind(kinds: seq<HeaderKind>, kind: HeaderKind, n: int) returns (j: int)
    requires 0 <= n <= |kinds|
    requires exists k :: 0 <= k < n && kinds[k] == kind
    requires NoneOfKind(kinds, n, kind)
    ensures LastOfKind(kinds, j, kind)
  {
    if kinds[n - 1] == kind {
      j := n - 1;
    } else {
      j := LastIndexOfKind(kinds, kind, n - 1);
    }
  }

  /** filter(None, ...) keeps a column only when it is present and not 0. */
  predicate Kept(c: Option<nat>)
  {
    c.Some? && c.value != 0
  }

  function Larger(m: Option<nat>, c: Option<nat>): Option<nat>
  {
    if Kept(c) && (m.None? || c.value > m.value) then c else m
  }

  /** max(filter(None, [price, appraisal, minimum, location])); None where Python raises. */
  function MaxColumn(cols: Columns): (m: Option<nat>)
    ensures m.None? <==> !Kept(cols.price) && !Kept(cols.appraisal) && !Kept(cols.minimum) && !Kept(cols.location)
    ensures m.Some? ==> m in [cols.price, cols.appraisal, cols.minimum, cols.location]
    ensures m.Some? ==>
              forall c: Option<nat> :: (c in [cols.price, cols.appraisal, cols.minimum, cols.location] && Kept(c))
                ==> c.value <= m.value
  {
    Larger(Larger(Larger(Larger(None, cols.price), cols.appraisal), cols.minimum), cols.location)
  }

  function CellText(cells: seq<string>, col: Option<nat>): Option<string>
  {
    if col.Some? && col.value < |cells| then Some(cells[col.value]) else None
  }

  /** A price cell read by parse_price as written; a missing column reads as 0. */
  function CellPrice(cells: seq<string>, col: Option<nat>): nat
  {
    match CellText(cells, col)
    case Some(t) => ParsePriceAsWritten(t)
    case None => 0
  }

  /** The record a matching row yields: missing market price and minimum bid are derived
      from the appraisal; a row with neither appraisal nor minimum bid yields nothing. */
  function RowRecord(row: HtmlRow, cols: Columns, caseNumber: string): Option<AuctionRecord>
  {
    var appraisal := CellPrice(row.cells, cols.appraisal);
    var minimum := CellPrice(row.cells, cols.minimum);
    var market := CellPrice(row.cells, cols.price);
    var location := match CellText(row.cells, cols.location) case Some(t) => PyStrip(t) case None => "";
    var market' := if market == 0 && appraisal > 0 then Tenths(appraisal, 11) else market;
    var minimum' := if minimum == 0 && appraisal > 0 then Tenths(appraisal, 7) else minimum;
    if appraisal > 0 || minimum' > 0 then
      Some(AuctionRecord(caseNumber, market', appraisal, minimum', Some(location), "법원경매사이트 (실제)"))
    else None
  }

  lemma RowRecordSpec(row: HtmlRow, cols: Columns, caseNumber: string)
    ensures var a := CellPrice(row.cells, cols.appraisal);
            var m := CellPrice(row.cells, cols.minimum);
            var p := CellPrice(row.cells, cols.price);
            var r := RowRecord(row, cols, caseNumber);
            && (r.Some? <==> a > 0 || m > 0)
            && (r.Some? ==> r.value.caseNumber == caseNumber && r.value.appraisalPrice == a)
            && (r.Some? && a > 0 ==> r.value.marketPrice > 0)
            && (r.Some? && a > 1 ==> r.value.minimumBid > 0)
            && (r.Some? && p == 0 && a > 0 ==>
                  r.value.marketPrice * 10 <= a * 11 < r.value.marketPrice * 10 + 10 && r.value.marketPrice >= a)
            && (r.Some? && m == 0 && a > 0 ==>
                  r.value.minimumBid * 10 <= a * 7 < r.value.minimumBid * 10 + 10 && r.value.minimumBid < a)
            && (r.Some? && p > 0 ==> r.value.marketPrice == p)
            && (r.Some? && m > 0 ==> r.value.minimumBid == m)
  {
    var a := CellPrice(row.cells, cols.appraisal);
    TenthsOrdered(a);
    assert Tenths(a, 11) == a * 11 / 10;
  }

  datatype Scan = Hit(record: AuctionRecord) | Miss | Failed

  function ScanRows(rows: seq<HtmlRow>, cols: Columns, caseNumber: string, k: nat): Scan
    requires k >= 1
    decreases |rows| - k
  {
    if k >= |rows| then Miss
    else if MaxColumn(cols).None? then Failed
    else if |rows[k].cells| < MaxColumn(cols).value || !Contains(rows[k].text, caseNumber) then
      ScanRows(rows, cols, caseNumber, k + 1)
    else match RowRecord(rows[k], cols, caseNumber)
      case Some(r) => Hit(r)
      case None => ScanRows(rows, cols, caseNumber, k + 1)
  }

  function ScanTable(table: HtmlTable, caseNumber: string): Scan
  {
    if |table.rows| < 2 then Miss
    else ScanRows(table.rows, HeaderColumns(table.rows[0].cells), caseNumber, 1)
  }

  function ScanTables(tables: seq<HtmlTable>, caseNumber: string, t: nat): Scan
    decreases |tables| - t
  {
    if t >= |tables| then Miss
    else match ScanTable(tables[t], caseNumber)
      case Miss => ScanTables(tables, caseNumber, t + 1)
      case other => other
  }

  /** extract_auction_data_from_html on a page's tables. */
  function ExtractAuctionData(tables: seq<HtmlTable>, caseNumber: string): Option<AuctionRecord>
  {
    match ScanTables(tables, caseNumber, 0)
    case Hit(r) => Some(r)
    case _ => None
  }

  method ExtractAuctionDataFromHtml(tables: seq<HtmlTable>, caseNumber: string) returns (r: Option<AuctionRecord>)
    ensures r == ExtractAuctionData(tables, caseNumber)
  {
    var t := 0;
    while t < |tables|
      invariant 0 <= t <= |tables|
      invariant ScanTables(tables, caseNumber, t) == ScanTables(tables, caseNumber, 0)
    {
      var rows := tables[t].rows;
      if |rows| < 2 {
        t := t + 1;
        continue;
      }
      var cols := HeaderCellColumns(rows[0].cells);
      var scan := ScanDataRows(rows, cols, caseNumber);
      match scan
      case Hit(record) =>
        return Some(record);
      case Failed =>
        // max() of an empty list raises; the handler returns None for the whole page
        return None;
      case Miss =>
      t := t + 1;
    }
    return None;
  }

  /** The header loop: each header cell classified in turn. */
  method HeaderCellColumns(headers: seq<string>) returns (cols: Columns)
    ensures cols == HeaderColumns(headers)
  {
    cols := NoColumns;
    var i := 0;
    while i < |headers|
      invariant 0 <= i <= |headers|
      invariant ScanHeaders(cols, headers, i) == HeaderColumns(headers)
    {
      cols := Classify(cols, i, headers[i]);
      i := i + 1;
    }
  }

  /** The row loop over the data rows of one table. */
  method ScanDataRows(rows: seq<HtmlRow>, cols: Columns, caseNumber: string) returns (scan: Scan)
    ensures scan == ScanRows(rows, cols, caseNumber, 1)
  {
    var k := 1;
    while k < |rows|
      invariant 1 <= k
      invariant ScanRows(rows, cols, caseNumber, k) == ScanRows(rows, cols, caseNumber, 1)
    {
      var maxCol := MaxColumn(cols);
      if maxCol.None? {
        return Failed;
      }
      if |rows[k].cells| < maxCol.value || !Contains(rows[k].text, caseNumber) {
        k := k + 1;
        continue;
      }
      var record := RowRecord(rows[k], cols, caseNumber);
      if record.Some? {
        return Hit(record.value);
      }
      k := k + 1;
    }
    return Miss;
  }

  /** A record comes from a data row whose text contains the case number and which has
      at least as many cells as the largest kept column index. */
  lemma {:induction false} ScanRowsFound(rows: seq<HtmlRow>, cols: Columns, caseNumber: string, k: nat)
    requires k >= 1
    requires ScanRows(rows, cols, caseNumber, k).Hit?
    decreases |rows| - k
    ensures exists j :: k <= j < |rows| && Contains(rows[j].text, caseNumber)
                        && RowRecord(rows[j], cols, caseNumber) == Some(ScanRows(rows, cols, caseNumber, k).record)
  {
    if Contains(rows[k].text, caseNumber) && |rows[k].cells| >= MaxColumn(cols).value
       && RowRecord(rows[k], cols, caseNumber).Some? {
    } else {
      ScanRowsFound(rows, cols, caseNumber, k + 1);
    }
  }

  lemma {:induction false} ScanTablesFound(tables: seq<HtmlTable>, caseNumber: string, t: nat)
    requires ScanTables(tables, caseNumber, t).Hit?
    decreases |tables| - t
    ensures exists u, j :: t <= u < |tables| && 1 <= j < |tables[u].rows|
                           && Contains(tables[u].rows[j].text, caseNumber)
                           && RowRecord(tables[u].rows[j], HeaderColumns(tables[u].rows[0].cells), caseNumber)
                              == Some(ScanTables(tables, caseNumber, t).record)
  {
    if ScanTable(tables[t], caseNumber).Miss? {
      ScanTablesFound(tables, caseNumber, t + 1);
    } else {
      ScanRowsFound(tables[t].rows, HeaderColumns(tables[t].rows[0].cells), caseNumber, 1);
    }
  }

  /** Only rows naming the case number are ever read. */
  lemma ExtractedRowNamesCase(tables: seq<HtmlTable>, caseNumber: string)
    requires ExtractAuctionData(tables, caseNumber).Some?
    ensures exists u, j :: 0 <= u < |tables| && 1 <= j < |tables[u].rows|
                           && Contains(tables[u].rows[j].text, caseNumber)
                           && RowRecord(tables[u].rows[j], HeaderColumns(tables[u].rows[0].cells), caseNumber)
                              == ExtractAuctionData(tables, caseNumber)
  {
    ScanTablesFound(tables, caseNumber, 0);
  }

  /** The first table with a data row that has no kept column ends the page with None,
      whatever later tables hold; a lone recognised column at index 0 is not kept. */
  lemma UnkeptColumnsEndPage(tables: seq<HtmlTable>, caseNumber: string, t: nat)
    requires t < |tables| && |tables[t].rows| >= 2
    requires forall u :: 0 <= u < t ==> |tables[u].rows| < 2
    requires MaxColumn(HeaderColumns(tables[t].rows[0].cells)).None?
    ensures ExtractAuctionData(tables, caseNumber) == None
  {
    ScanTablesSkip(tables, caseNumber, 0, t);
  }

  lemma {:induction false} ScanTablesSkip(tables: seq<HtmlTable>, caseNumber: string, s: nat, t: nat)
    requires s <= t < |tables|
    requires forall u :: s <= u < t ==> |tables[u].rows| < 2
    decreases t - s
    ensures ScanTables(tables, caseNumber, s) == ScanTables(tables, caseNumber, t)
  {
    if s < t {
      assert |tables[s].rows| < 2;
      assert ScanTable(tables[s], caseNumber) == Miss;
      ScanTablesSkip(tables, caseNumber, s + 1, t);
    }
  }

  lemma AppraisalAtFirstColumn()
    ensures HeaderColumns(["감정가", "비고"]) == Columns(None, Some(0), None, None)
    ensures MaxColumn(HeaderColumns(["감정가", "비고"])).None?
  {
    var h := ["감정가", "비고"];
    AppraisalHeaderKind(h[0]);
    RemarksHeaderKind(h[1]);
    assert HeaderColumns(h) == ScanHeaders(Columns(None, Some(0), None, None), h, 1);
    assert ScanHeaders(Columns(None, Some(0), None, None), h, 1) == ScanHeaders(Columns(None, Some(0), None, None), h, 2);
  }

  lemma AppraisalHeaderKind(h: string)
    requires h == "감정가"
    ensures KindOf(h) == AppraisalHeader
  {
    assert PyStrip(h) == h by {
      TrimNoop(h, IsPySpace);
    }
    assert Contains(h, "감정가") by {
      ContainsSelf(h);
    }
    assert Contains(h, ["감정가", "감정액", "평가액"][0]);
  }

  lemma RemarksHeaderKind(h: string)
    requires h == "비고"
    ensures KindOf(h) == OtherHeader
  {
    assert PyStrip(h) == h by {
      TrimNoop(h, IsPySpace);
    }
    forall w | w in ["감정가", "감정액", "평가액", "최저가", "최저입찰가", "시작가", "시세", "시장가", "거래가", "소재지", "주소", "위치"]
      ensures !Contains(h, w)
    {
      if Contains(h, w) {
        ContainsHasChar(h, w, 0);
      }
    }
  }
}
