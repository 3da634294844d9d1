// Regional sale statistics (auction_statistics.py): per-district records and
// a per-region summary built from spreadsheet rows, the three-tier district
// lookup, top-district rankings, and the market score, competition band and
// investment recommendation derived from a district's rates.

module AuctionStatistics {
  import opened Wrappers
  import opened Text
  import Sorting
  import AuctionCrawler

  // ---------------------------------------------------------------------
  // Rows and per-district records

  /**
   * One spreadsheet row as `str()` renders its cells, with thousands separators
   * and '%' already removed.
   */
  datatype Cells = Cells(
    district: string,
    auctionsText: string,
    salesText: string,
    appraisalText: string,
    saleText: string,
    saleRateText: string,
    salePriceRateText: string)

  /** A row whose two count cells int() has read; the other cells stay text. */
  datatype Row = Row(
    district: string,
    auctions: int,
    sales: int,
    appraisalText: string,
    saleText: string,
    saleRateText: string,
    salePriceRateText: string)

  datatype DistrictStats = DistrictStats(
    auctions: int,
    sales: int,
    appraisalValue: nat,
    saleValue: nat,
    saleRate: real,
    salePriceRate: real,
    avgAppraisalPerCase: real,
    avgSalePerCase: real)

  /** An amount cell: its value when it is all digits, 0 otherwise. */
  function Amount(t: string): nat
  {
    if |t| > 0 && AllDigits(t) then DigitsValue(t) else 0
  }

  /** How Python reads a rate cell: `float(t) if t.replace('.', '').isdigit() else 0.0`. */
  datatype RateText = Numeric(value: real) | NonNumeric | Malformed

  /** The value of a decimal numeral with at most one '.', as float() reads it. */
  function DecimalValue(t: string, whole: nat, frac: nat, scale: nat, afterDot: bool): real
    requires scale >= 1
  {
    if |t| == 0 then whole as real + frac as real / scale as real
    else if t[0] == '.' then DecimalValue(t[1..], whole, frac, scale, true)
    else if !IsDigit(t[0]) then DecimalValue(t[1..], whole, frac, scale, afterDot)
    else if afterDot then DecimalValue(t[1..], whole, frac * 10 + DigitValue(t[0]), scale * 10, true)
    else DecimalValue(t[1..], whole * 10 + DigitValue(t[0]), frac, scale, false)
  }

  /**
   * A rate cell is numeric when it is digits with dots; float() then raises on
   * a second dot.
   */
  function ReadRate(t: string): RateText
  {
    var digits := RemoveChar(t, '.');
    if |digits| == 0 || !AllDigits(digits) then NonNumeric
    else if CountChar(t, '.') >= 2 then Malformed
    else Numeric(DecimalValue(t, 0, 0, 1, false))
  }

  /**
   * The stored rates of a row. A cell that float() rejects raises inside the
   * shared try block, which sets both rates to 0.0.
   */
  function RatesOf(row: Row): (real, real)
  {
    var a, b := ReadRate(row.saleRateText), ReadRate(row.salePriceRateText);
    if a.Malformed? || b.Malformed? then (0.0, 0.0)
    else (if a.Numeric? then a.value else 0.0, if b.Numeric? then b.value else 0.0)
  }

  function DistrictOf(row: Row): DistrictStats
  {
    var appraisal, sale := Amount(row.appraisalText), Amount(row.saleText);
    var rates := RatesOf(row);
    DistrictStats(
      row.auctions, row.sales, appraisal, sale, rates.0, rates.1,
      if row.auctions > 0 then appraisal as real / row.auctions as real else 0.0,
      if row.sales > 0 then sale as real / row.sales as real else 0.0)
  }

  /** The per-case averages are the amounts shared out over the counts, 0 for a zero count. */
  lemma DistrictAverages(row: Row)
    ensures var d := DistrictOf(row);
      (d.auctions > 0 ==> d.avgAppraisalPerCase * d.auctions as real == d.appraisalValue as real)
      && (d.auctions <= 0 ==> d.avgAppraisalPerCase == 0.0)
      && (d.sales > 0 ==> d.avgSalePerCase * d.sales as real == d.saleValue as real)
      && (d.sales <= 0 ==> d.avgSalePerCase == 0.0)
  {
  }

  /** The rates are stored as read from their cells, never recomputed from the counts. */
  lemma RatesAsSupplied(row: Row, other: Row)
    requires other.saleRateText == row.saleRateText && other.salePriceRateText == row.salePriceRateText
    ensures DistrictOf(other).saleRate == DistrictOf(row).saleRate
    ensures DistrictOf(other).salePriceRate == DistrictOf(row).salePriceRate
    ensures !ReadRate(row.saleRateText).Numeric? ==> DistrictOf(row).saleRate == 0.0
    ensures !ReadRate(row.salePriceRateText).Numeric? ==> DistrictOf(row).salePriceRate == 0.0
  {
  }

  lemma RateReadings()
    ensures ReadRate("85") == Numeric(85.0)
    ensures ReadRate("85.3") == Numeric(85.3)
    ensures ReadRate("-") == NonNumeric
    ensures ReadRate("") == NonNumeric
    ensures ReadRate("1.2.3") == Malformed
  {
    ReadWholeRate();
    ReadDecimalRate();
    ReadOtherRates();
  }

  lemma ReadWholeRate()
    ensures ReadRate("85") == Numeric(85.0)
  {
    assert RemoveChar("85", '.') == "85";
    assert DecimalValue("85", 0, 0, 1, false) == 85.0 by {
      assert "85"[1..] == "5";
      assert DecimalValue("5", 8, 0, 1, false) == DecimalValue("", 85, 0, 1, false);
    }
  }

  lemma ReadDecimalRate()
    ensures ReadRate("85.3") == Numeric(85.3)
  {
    assert RemoveChar("85.3", '.') == "853";
    assert CountChar("85.3", '.') == 1;
    assert DecimalValue("85.3", 0, 0, 1, false) == 85.3 by {
      assert "85.3"[1..] == "5.3" && "5.3"[1..] == ".3" && ".3"[1..] == "3";
      assert DecimalValue("3", 85, 0, 1, true) == DecimalValue("", 85, 3, 10, true);
    }
  }

  lemma ReadOtherRates()
    ensures ReadRate("-") == NonNumeric
    ensures ReadRate("") == NonNumeric
    ensures ReadRate("1.2.3") == Malformed
  {
    assert RemoveChar("-", '.') == "-";
    assert RemoveChar("1.2.3", '.') == "123";
    assert CountChar("1.2.3", '.') == 2;
  }

  // ---------------------------------------------------------------------
  // The district table: a Python dict, so keys are unique and keep the
  // position of their first insertion

  datatype Entry = Entry(name: string, stats: DistrictStats)

  function Names(t: seq<Entry>): (r: seq<string>)
    ensures |r| == |t| && forall k :: 0 <= k < |t| ==> r[k] == t[k].name
  {
    if |t| == 0 then [] else [t[0].name] + Names(t[1..])
  }

  predicate Distinct(s: seq<string>)
  {
    forall a, b :: 0 <= a < b < |s| ==> s[a] != s[b]
  }

  /** `d[name]` when present. */
  function Lookup(t: seq<Entry>, name: string): (r: Option<DistrictStats>)
    ensures r.None? <==> name !in Names(t)
  {
    if |t| == 0 then None
    else if t[0].name == name then Some(t[0].stats)
    else Lookup(t[1..], name)
  }

  /** `d[name] = stats`: replace in place, or append a new key. */
  function Assign(t: seq<Entry>, name: string, stats: DistrictStats): (r: seq<Entry>)
    ensures Names(r) == if name in Names(t) then Names(t) else Names(t) + [name]
  {
    if |t| == 0 then [Entry(name, stats)]
    else if t[0].name == name then [Entry(name, stats)] + t[1..]
    else [t[0]] + Assign(t[1..], name, stats)
  }

  lemma {:induction false} AssignLookup(t: seq<Entry>, name: string, stats: DistrictStats, key: string)
    ensures Lookup(Assign(t, name, stats), key) == if key == name then Some(stats) else Lookup(t, key)
  {
    if |t| > 0 && t[0].name != name {
      AssignLookup(t[1..], name, stats, key);
    }
  }

  function DistrictsOf(rows: seq<Row>): seq<Entry>
  {
    if |rows| == 0 then []
    else
      var last := rows[|rows| - 1];
      Assign(DistrictsOf(rows[..|rows| - 1]), last.district, DistrictOf(last))
  }

  /** The last row naming a district, which is the one the dict keeps. */
  function LastRowFor(rows: seq<Row>, name: string): Option<Row>
  {
    if |rows| == 0 then None
    else if rows[|rows| - 1].district == name then Some(rows[|rows| - 1])
    else LastRowFor(rows[..|rows| - 1], name)
  }

  /** Every district named by a row is stored once, with the record of its last row. */
  lemma {:induction false} DistrictsOfLookup(rows: seq<Row>, name: string)
    ensures Lookup(DistrictsOf(rows), name)
         == match LastRowFor(rows, name) case None => None case Some(row) => Some(DistrictOf(row))
  {
    if |rows| > 0 {
      var last := rows[|rows| - 1];
      DistrictsOfLookup(rows[..|rows| - 1], name);
      AssignLookup(DistrictsOf(rows[..|rows| - 1]), last.district, DistrictOf(last), name);
    }
  }

  lemma {:induction false} DistrictsOfDistinct(rows: seq<Row>)
    ensures Distinct(Names(DistrictsOf(rows)))
  {
    if |rows| > 0 {
      DistrictsOfDistinct(rows[..|rows| - 1]);
    }
  }

  // ---------------------------------------------------------------------
  // Totals and the region summary

  datatype Counter = Auctions | Sales | AppraisalValue | SaleValue

  function CountOf(d: DistrictStats, c: Counter): int
  {
    match c
    case Auctions => d.auctions
    case Sales => d.sales
    case AppraisalValue => d.appraisalValue
    case SaleValue => d.saleValue
  }

  /** The sum of one counter over all rows, duplicates included. */
  function Total(rows: seq<Row>, c: Counter): int
  {
    if |rows| == 0 then 0 else Total(rows[..|rows| - 1], c) + CountOf(DistrictOf(rows[|rows| - 1]), c)
  }

  /** The sum of one counter over the stored districts. */
  function TableTotal(t: seq<Entry>, c: Counter): int
  {
    if |t| == 0 then 0 else CountOf(t[0].stats, c) + TableTotal(t[1..], c)
  }

  datatype Summary = Summary(
    totalAuctions: int,
    totalSales: int,
    totalAppraisalValue: int,
    totalSaleValue: int,
    overallSaleRate: real,
    overallSalePriceRate: real)

  function SummaryOf(auctions: int, sales: int, appraisal: int, saleValue: int): Summary
  {
    Summary(auctions, sales, appraisal, saleValue,
      if auctions > 0 then sales as real / auctions as real * 100.0 else 0.0,
      if appraisal > 0 then saleValue as real / appraisal as real * 100.0 else 0.0)
  }

  datatype RegionData = RegionData(region: string, districts: seq<Entry>, summary: Summary)

  function RegionOf(region: string, rows: seq<Row>): RegionData
  {
    RegionData(region, DistrictsOf(rows),
      SummaryOf(Total(rows, Auctions), Total(rows, Sales), Total(rows, AppraisalValue), Total(rows, SaleValue)))
  }

  /** `int(str(cell))` on both count cells: None when either raises ValueError, on text
      such as "-", "" or "12.0". */
  function ReadRow(c: Cells): (r: Option<Row>)
    ensures r.None? <==> AuctionCrawler.PyInt(c.auctionsText).Err? || AuctionCrawler.PyInt(c.salesText).Err?
    ensures r.Some? ==> r.value.district == c.district
                        && AuctionCrawler.PyInt(c.auctionsText) == Ok(r.value.auctions)
                        && AuctionCrawler.PyInt(c.salesText) == Ok(r.value.sales)
  {
    var auctions, sales := AuctionCrawler.PyInt(c.auctionsText), AuctionCrawler.PyInt(c.salesText);
    if auctions.Ok? && sales.Ok? then
      Some(Row(c.district, auctions.value, sales.value, c.appraisalText, c.saleText,
               c.saleRateText, c.salePriceRateText))
    else None
  }

  /** The rows read in order; None once a row raises. */
  function ReadRows(cells: seq<Cells>): Option<seq<Row>>
  {
    if |cells| == 0 then Some([])
    else
      var rows, row := ReadRows(cells[..|cells| - 1]), ReadRow(cells[|cells| - 1]);
      if rows.Some? && row.Some? then Some(rows.value + [row.value]) else None
  }

  /** What process_region_data returns, or the ValueError a count cell raises out of it. */
  function ProcessRegion(region: string, cells: seq<Cells>): Result<RegionData, AuctionCrawler.PyError>
  {
    match ReadRows(cells)
    case None => Err(AuctionCrawler.ValueError)
    case Some(rows) => Ok(RegionOf(region, rows))
  }

  /** process_region_data: one pass over the rows filling the table and the running totals;
      a count cell that int() rejects raises out of the loop. */
  method ProcessRegionData(cells: seq<Cells>, region: string)
    returns (data: Result<RegionData, AuctionCrawler.PyError>)
    ensures data == ProcessRegion(region, cells)
    ensures data.Ok? ==> Distinct(Names(data.value.districts))
    ensures data.Ok? ==>
      forall k :: 0 <= k < |cells| ==> Lookup(data.value.districts, cells[k].district).Some?
  {
    var rows: seq<Row> := [];
    var districts: seq<Entry> := [];
    var auctions, sales, appraisal, saleValue := 0, 0, 0, 0;
    var i := 0;
    while i < |cells|
      invariant 0 <= i <= |cells|
      invariant ReadRows(cells[..i]) == Some(rows)
      invariant districts == DistrictsOf(rows)
      invariant auctions == Total(rows, Auctions) && sales == Total(rows, Sales)
      invariant appraisal == Total(rows, AppraisalValue) && saleValue == Total(rows, SaleValue)
    {
      assert cells[..i + 1][..i] == cells[..i];
      var read := ReadRow(cells[i]);
      assert ReadRows(cells[..i + 1]) == if read.Some? then Some(rows + [read.value]) else None;
      if read.None? {
        ReadRowsFails(cells, i);
        return Err(AuctionCrawler.ValueError);
      }
      var row := read.value;
      var stats := DistrictOf(row);
      TotalSnoc(rows, row);
      rows := rows + [row];
      districts := Assign(districts, row.district, stats);
      auctions := auctions + stats.auctions;
      sales := sales + stats.sales;
      appraisal := appraisal + stats.appraisalValue;
      saleValue := saleValue + stats.saleValue;
      i := i + 1;
    }
    assert cells[..i] == cells;
    data := Ok(RegionData(region, districts, SummaryOf(auctions, sales, appraisal, saleValue)));
    ProcessRegionTable(region, cells);
  }

  /** Appending a row adds its counts to every total and assigns its district. */
  lemma TotalSnoc(rows: seq<Row>, row: Row)
    ensures forall c :: Total(rows + [row], c) == Total(rows, c) + CountOf(DistrictOf(row), c)
    ensures DistrictsOf(rows + [row]) == Assign(DistrictsOf(rows), row.district, DistrictOf(row))
  {
    assert (rows + [row])[..|rows|] == rows;
  }

  /** A region that loads stores each district once, and every line's district is stored. */
  lemma ProcessRegionTable(region: string, cells: seq<Cells>)
    ensures ProcessRegion(region, cells).Ok? ==> Distinct(Names(ProcessRegion(region, cells).value.districts))
    ensures ProcessRegion(region, cells).Ok? ==>
      forall k :: 0 <= k < |cells| ==> Lookup(ProcessRegion(region, cells).value.districts, cells[k].district).Some?
  {
    if ReadRows(cells).Some? {
      var rows := ReadRows(cells).value;
      DistrictsOfDistinct(rows);
      ReadRowsShape(cells);
      forall k | 0 <= k < |cells|
        ensures Lookup(DistrictsOf(rows), cells[k].district).Some?
      {
        assert rows[k] in rows;
        LastRowForPresent(rows, rows[k]);
        DistrictsOfLookup(rows, rows[k].district);
      }
    }
  }

  /** A row that raises makes the whole pass raise, whatever follows it. */
  lemma {:induction false} ReadRowsFails(cells: seq<Cells>, k: int)
    requires 0 <= k < |cells| && ReadRow(cells[k]).None?
    ensures ReadRows(cells).None?
  {
    if k < |cells| - 1 {
      ReadRowsFails(cells[..|cells| - 1], k);
    }
  }

  /** The pass succeeds exactly when every row's counts read, and then it holds one row per
      line, the one that line reads as. */
  lemma {:induction false} ReadRowsShape(cells: seq<Cells>)
    ensures ReadRows(cells).Some? <==> forall k :: 0 <= k < |cells| ==> ReadRow(cells[k]).Some?
    ensures ReadRows(cells).Some? ==>
      |ReadRows(cells).value| == |cells|
      && forall k :: 0 <= k < |cells| ==> ReadRow(cells[k]) == Some(ReadRows(cells).value[k])
  {
    if |cells| > 0 {
      var init, last := cells[..|cells| - 1], cells[|cells| - 1];
      ReadRowsShape(init);
      if ReadRows(init).Some? && ReadRow(last).Some? {
        var rows := ReadRows(init).value + [ReadRow(last).value];
        forall k | 0 <= k < |cells|
          ensures ReadRow(cells[k]) == Some(rows[k])
        {
          if k < |init| {
            assert cells[k] == init[k];
          }
        }
      } else if ReadRow(last).Some? {
        var k :| 0 <= k < |init| && ReadRow(init[k]).None?;
        assert cells[k] == init[k];
      }
    }
  }

  /** load_all_data's handler: a region whose rows raise stays out of the index. */
  function LoadRegion(index: StatisticsIndex, region: string, cells: seq<Cells>): StatisticsIndex
  {
    match ProcessRegion(region, cells)
    case Err(_) => index
    case Ok(data) => index[region := data]
  }

  /** A count cell that int() rejects leaves the region unloaded, so it has no summary;
      otherwise the region is stored with the row totals. */
  lemma UnreadableCountsUnloaded(index: StatisticsIndex, region: string, cells: seq<Cells>, k: int)
    requires region !in index
    requires 0 <= k < |cells|
    requires AuctionCrawler.PyInt(cells[k].auctionsText).Err? || AuctionCrawler.PyInt(cells[k].salesText).Err?
    ensures LoadRegion(index, region, cells) == index
    ensures RegionSummary(LoadRegion(index, region, cells), region) == None
  {
    ReadRowsFails(cells, k);
  }

  /** Plain digits read as their value. */
  lemma CountReadsDigits()
    ensures AuctionCrawler.PyInt("85") == Ok(85)
  {
    AuctionCrawler.PyIntDigits("85");
    assert DigitsValue("8") == 8;
  }

  /** A dash and an empty cell raise. */
  lemma CountRejectsBlank()
    ensures AuctionCrawler.PyInt("-").Err?
    ensures AuctionCrawler.PyInt("").Err?
  {
    TrimNoop("-", IsPySpace);
    TrimNoop("", IsPySpace);
  }

  /** A count pandas rendered as a float raises. */
  lemma CountRejectsFloat()
    ensures AuctionCrawler.PyInt("12.0").Err?
  {
    var t := "12.0";
    assert !IsPySpace(t[0]) && !IsPySpace(t[3]);
    TrimNoop(t, IsPySpace);
    PyIntRejects(t, 2);
  }

  /** A stripped, unsigned text with a character that is neither a digit nor '_' raises. */
  lemma PyIntRejects(s: string, i: int)
    requires PyStrip(s) == s && |s| > 0 && s[0] != '+' && s[0] != '-'
    requires 0 <= i < |s| && !IsDigit(s[i]) && s[i] != '_'
    ensures AuctionCrawler.PyInt(s).Err?
  {
    assert !AuctionCrawler.IntBody(s) by {
      assert !(IsDigit(s[i]) || s[i] == '_');
    }
  }



  lemma {:induction false} LastRowForPresent(rows: seq<Row>, row: Row)
    requires row in rows
    ensures LastRowFor(rows, row.district).Some?
  {
    if rows[|rows| - 1].district != row.district {
      assert row in rows[..|rows| - 1];
      LastRowForPresent(rows[..|rows| - 1], row);
    }
  }

  /** The overall rates are the ratios of the totals, and 0.0 when the divisor total is 0. */
  lemma SummaryRates(auctions: int, sales: int, appraisal: int, saleValue: int)
    ensures var s := SummaryOf(auctions, sales, appraisal, saleValue);
      (s.totalAuctions > 0 ==> s.overallSaleRate * s.totalAuctions as real == s.totalSales as real * 100.0)
      && (s.totalAuctions <= 0 ==> s.overallSaleRate == 0.0)
      && (s.totalAppraisalValue > 0 ==> s.overallSalePriceRate * s.totalAppraisalValue as real == s.totalSaleValue as real * 100.0)
      && (s.totalAppraisalValue <= 0 ==> s.overallSalePriceRate == 0.0)
  {
    if auctions > 0 {
      PercentOf(sales as real, auctions as real);
    }
    if appraisal > 0 {
      PercentOf(saleValue as real, appraisal as real);
    }
  }

  /** A percentage times its base gives back a hundred times the part. */
  lemma PercentOf(part: real, base: real)
    requires base > 0.0
    ensures part / base * 100.0 * base == part * 100.0
  {
    assert part / base * base == part;
  }

  predicate DistinctDistricts(rows: seq<Row>)
  {
    forall a, b :: 0 <= a < b < |rows| ==> rows[a].district != rows[b].district
  }

  lemma {:induction false} TableTotalAppend(t: seq<Entry>, e: Entry, c: Counter)
    ensures TableTotal(t + [e], c) == TableTotal(t, c) + CountOf(e.stats, c)
  {
    if |t| == 0 {
      assert t + [e] == [e];
    } else {
      assert (t + [e])[1..] == t[1..] + [e];
      TableTotalAppend(t[1..], e, c);
    }
  }

  lemma {:induction false} AssignFresh(t: seq<Entry>, name: string, stats: DistrictStats)
    requires name !in Names(t)
    ensures Assign(t, name, stats) == t + [Entry(name, stats)]
  {
    if |t| > 0 {
      AssignFresh(t[1..], name, stats);
    }
  }

  lemma {:induction false} DistrictsOfNamesIn(rows: seq<Row>, name: string)
    requires name in Names(DistrictsOf(rows))
    ensures exists k :: 0 <= k < |rows| && rows[k].district == name
  {
    var init, last := rows[..|rows| - 1], rows[|rows| - 1];
    if name != last.district {
      DistrictsOfNamesIn(init, name);
      var k :| 0 <= k < |init| && init[k].district == name;
      assert rows[k].district == name;
    }
  }

  /**
   * The summary totals are sums over the rows; when no district repeats they
   * are also the sums over the stored districts. (A repeated district keeps
   * only its last row in the table but every row in the totals.)
   */
  lemma {:induction false} TotalsMatchTable(rows: seq<Row>, c: Counter)
    requires DistinctDistricts(rows)
    ensures TableTotal(DistrictsOf(rows), c) == Total(rows, c)
  {
    if |rows| > 0 {
      var init, last := rows[..|rows| - 1], rows[|rows| - 1];
      assert DistinctDistricts(init);
      TotalsMatchTable(init, c);
      if last.district in Names(DistrictsOf(init)) {
        DistrictsOfNamesIn(init, last.district);
        assert false;
      }
      AssignFresh(DistrictsOf(init), last.district, DistrictOf(last));
      TableTotalAppend(DistrictsOf(init), Entry(last.district, DistrictOf(last)), c);
    }
  }

  // ---------------------------------------------------------------------
  // District lookup

  type StatisticsIndex = map<string, RegionData>

  predicate Related(stored: string, query: string)
  {
    Contains(query, stored) || Contains(stored, query)
  }

  /** The first stored district, in load order, that occurs in the query or contains it. */
  function ScanRelated(t: seq<Entry>, query: string): Option<DistrictStats>
  {
    if |t| == 0 then None
    else if Related(t[0].name, query) then Some(t[0].stats)
    else ScanRelated(t[1..], query)
  }

  function LastToken(query: string): Option<string>
  {
    var parts := Split(query, ' ');
    if |parts| >= 2 then Some(parts[|parts| - 1]) else None
  }

  /** get_district_statistics: exact key, then the last token for 경기, then the scan. */
  function DistrictStatistics(index: StatisticsIndex, region: string, query: string): Option<DistrictStats>
  {
    if region !in index then None
    else
      var t := index[region].districts;
      if Lookup(t, query).Some? then Lookup(t, query)
      else if region == "경기" && Contains(query, "시") && LastToken(query).Some?
              && Lookup(t, LastToken(query).value).Some? then
        Lookup(t, LastToken(query).value)
      else ScanRelated(t, query)
  }

  method GetDistrictStatistics(index: StatisticsIndex, region: string, query: string)
    returns (r: Option<DistrictStats>)
    ensures r == DistrictStatistics(index, region, query)
  {
    if region !in index {
      return None;
    }
    var t := index[region].districts;
    var exact := Lookup(t, query);
    if exact.Some? {
      return exact;
    }
    if region == "경기" && Contains(query, "시") {
      var parts := Split(query, ' ');
      if |parts| >= 2 {
        var simplified := Lookup(t, parts[|parts| - 1]);
        if simplified.Some? {
          return simplified;
        }
      }
    }
    var i := 0;
    while i < |t|
      invariant 0 <= i <= |t|
      invariant ScanRelated(t, query) == ScanRelated(t[i..], query)
    {
      assert t[i..][1..] == t[i + 1..];
      if Contains(query, t[i].name) || Contains(t[i].name, query) {
        return Some(t[i].stats);
      }
      i := i + 1;
    }
    return None;
  }

  lemma {:induction false} LookupRelated(t: seq<Entry>, name: string, query: string)
    requires Lookup(t, name).Some? && Contains(query, name)
    ensures ScanRelated(t, query).Some?
  {
    if t[0].name != name {
      if !Related(t[0].name, query) {
        LookupRelated(t[1..], name, query);
      }
    } else {
      assert Related(t[0].name, query);
    }
  }

  lemma {:induction false} ScanRelatedNone(t: seq<Entry>, query: string)
    ensures ScanRelated(t, query).None? <==> forall k :: 0 <= k < |t| ==> !Related(t[k].name, query)
  {
    if |t| > 0 {
      ScanRelatedNone(t[1..], query);
      assert forall k :: 1 <= k < |t| ==> t[1..][k - 1] == t[k];
    }
  }

  lemma LastTokenOccurs(query: string)
    requires LastToken(query).Some?
    ensures Contains(query, LastToken(query).value)
  {
    var parts := Split(query, ' ');
    SplitPiecesOccur(query, ' ', |parts| - 1);
  }

  lemma {:induction false} SplitPiecesOccur(s: string, sep: char, k: int)
    requires 0 <= k < |Split(s, sep)|
    ensures Contains(s, Split(s, sep)[k])
  {
    if |s| == 0 {
      ContainsEmpty(s);
    } else {
      var rest := Split(s[1..], sep);
      if s[0] == sep {
        if k == 0 {
          ContainsEmpty(s);
        } else {
          SplitPiecesOccur(s[1..], sep, k - 1);
          ContainsAppendLeft([s[0]], s[1..], rest[k - 1]);
          assert [s[0]] + s[1..] == s;
        }
      } else if k == 0 {
        SplitHeadPrefix(s[1..], sep);
        assert OccursAt(s, [s[0]] + rest[0], 0);
      } else {
        SplitPiecesOccur(s[1..], sep, k);
        ContainsAppendLeft([s[0]], s[1..], rest[k]);
        assert [s[0]] + s[1..] == s;
      }
    }
  }

  lemma {:induction false} SplitHeadPrefix(s: string, sep: char)
    ensures StartsWith(s, Split(s, sep)[0])
  {
    if |s| > 0 && s[0] != sep {
      SplitHeadPrefix(s[1..], sep);
    }
  }

  /**
   * The lookup finds nothing exactly when the region is unknown or no stored
   * district occurs in the query or contains it.
   */
  lemma DistrictStatisticsNone(index: StatisticsIndex, region: string, query: string)
    ensures DistrictStatistics(index, region, query).None?
        <==> region !in index
             || forall k :: 0 <= k < |index[region].districts|
                  ==> !Related(index[region].districts[k].name, query)
  {
    if region in index {
      var t := index[region].districts;
      ScanRelatedNone(t, query);
      if Lookup(t, query).Some? {
        ContainsSelf(query);
        LookupRelated(t, query, query);
      } else if region == "경기" && Contains(query, "시") && LastToken(query).Some?
                && Lookup(t, LastToken(query).value).Some? {
        LastTokenOccurs(query);
        LookupRelated(t, LastToken(query).value, query);
      }
    }
  }

  function SampleStats(rate: real): DistrictStats
  {
    DistrictStats(10, 3, 0, 0, rate, 80.0, 0.0, 0.0)
  }

  /**
   * Tier order: an exact key wins over an earlier stored district that occurs
   * in the query, and for 경기 the last token of "수원시 영통구" wins over the
   * earlier stored "수원시".
   */
  lemma TierOrder()
    ensures var t := [Entry("강남", SampleStats(1.0)), Entry("강남구", SampleStats(2.0))];
      var index := map["서울" := RegionData("서울", t, SummaryOf(0, 0, 0, 0))];
      DistrictStatistics(index, "서울", "강남구") == Some(SampleStats(2.0))
      && DistrictStatistics(index, "서울", "강남구청") == Some(SampleStats(1.0))
    ensures var t := [Entry("수원시", SampleStats(1.0)), Entry("영통구", SampleStats(2.0))];
      var index := map["경기" := RegionData("경기", t, SummaryOf(0, 0, 0, 0))];
      DistrictStatistics(index, "경기", "수원시 영통구") == Some(SampleStats(2.0))
      && DistrictStatistics(index, "서울", "수원시 영통구") == None
  {
    ExactKeyFirst();
    LastTokenFirst();
  }

  lemma ExactKeyFirst()
    ensures var t := [Entry("강남", SampleStats(1.0)), Entry("강남구", SampleStats(2.0))];
      var index := map["서울" := RegionData("서울", t, SummaryOf(0, 0, 0, 0))];
      DistrictStatistics(index, "서울", "강남구") == Some(SampleStats(2.0))
      && DistrictStatistics(index, "서울", "강남구청") == Some(SampleStats(1.0))
  {
    assert OccursAt("강남구청", "강남", 0);
  }

  lemma LastTokenFirst()
    ensures var t := [Entry("수원시", SampleStats(1.0)), Entry("영통구", SampleStats(2.0))];
      var index := map["경기" := RegionData("경기", t, SummaryOf(0, 0, 0, 0))];
      DistrictStatistics(index, "경기", "수원시 영통구") == Some(SampleStats(2.0))
      && DistrictStatistics(index, "서울", "수원시 영통구") == None
  {
    SuwonLastToken();
    SuwonLookups();
  }

  lemma SuwonLastToken()
    ensures LastToken("수원시 영통구") == Some("영통구")
    ensures Contains("수원시 영통구", "시")
  {
    var q := "수원시 영통구";
    assert q == "수원시" + [' '] + "영통구";
    SplitTwo("수원시", "영통구", ' ');
    assert OccursAt(q, "시", 2);
  }

  lemma SuwonLookups()
    ensures var t := [Entry("수원시", SampleStats(1.0)), Entry("영통구", SampleStats(2.0))];
      Lookup(t, "수원시 영통구") == None && Lookup(t, "영통구") == Some(SampleStats(2.0))
  {
    var t := [Entry("수원시", SampleStats(1.0)), Entry("영통구", SampleStats(2.0))];
    assert t[1..] == [Entry("영통구", SampleStats(2.0))];
  }

  /** get_region_summary: the stored summary of a known region. */
  function RegionSummary(index: StatisticsIndex, region: string): Option<Summary>
  {
    if region in index then Some(index[region].summary) else None
  }

  lemma RegionSummaryOfRows(rows: seq<Row>, region: string)
    ensures var s := RegionSummary(map[region := RegionOf(region, rows)], region);
      s.Some? && s.value.totalAuctions == Total(rows, Auctions) && s.value.totalSales == Total(rows, Sales)
      && s.value.totalAppraisalValue == Total(rows, AppraisalValue) && s.value.totalSaleValue == Total(rows, SaleValue)
    ensures RegionSummary(map[region := RegionOf(region, rows)], region + "도") == None
  {
    assert |region + "도"| != |region|;
  }

  // ---------------------------------------------------------------------
  // Rankings

  datatype Metric = BySaleRate | BySalePriceRate

  function MetricOf(d: DistrictStats, m: Metric): real
  {
    match m
    case BySaleRate => d.saleRate
    case BySalePriceRate => d.salePriceRate
  }

  datatype Ranked = Ranked(district: string, value: real)

  function RankValue(r: Ranked): real { r.value }

  function RankedOf(t: seq<Entry>, m: Metric): (r: seq<Ranked>)
    ensures |r| == |t|
    ensures forall k :: 0 <= k < |t| ==> r[k] == Ranked(t[k].name, MetricOf(t[k].stats, m))
  {
    if |t| == 0 then [] else [Ranked(t[0].name, MetricOf(t[0].stats, m))] + RankedOf(t[1..], m)
  }

  /** Python's `s[:limit]`, negative limits counting from the end. */
  function SliceHead<T>(s: seq<T>, limit: int): seq<T>
  {
    if limit >= 0 then (if limit <= |s| then s[..limit] else s)
    else if |s| + limit >= 0 then s[..|s| + limit] else []
  }

  function TopDistricts(index: StatisticsIndex, region: string, m: Metric, limit: int): seq<Ranked>
  {
    if region !in index then []
    else SliceHead(Sorting.SortDesc(RankedOf(index[region].districts, m), RankValue), limit)
  }

  /** find_best_districts_by_sale_rate / _by_sale_price_rate. */
  method FindBestDistricts(index: StatisticsIndex, region: string, m: Metric, limit: int)
    returns (r: seq<Ranked>)
    ensures r == TopDistricts(index, region, m, limit)
  {
    if region !in index {
      return [];
    }
    var t := index[region].districts;
    var districts: seq<Ranked> := [];
    var i := 0;
    while i < |t|
      invariant 0 <= i <= |t|
      invariant districts == RankedOf(t[..i], m)
    {
      RankedOfSnoc(t, i, m);
      districts := districts + [Ranked(t[i].name, MetricOf(t[i].stats, m))];
      i := i + 1;
    }
    assert t[..i] == t;
    districts := Sorting.SortDesc(districts, RankValue);
    r := SliceHead(districts, limit);
  }

  lemma RankedOfSnoc(t: seq<Entry>, i: int, m: Metric)
    requires 0 <= i < |t|
    ensures RankedOf(t[..i + 1], m) == RankedOf(t[..i], m) + [Ranked(t[i].name, MetricOf(t[i].stats, m))]
  {
    var a, b := RankedOf(t[..i + 1], m), RankedOf(t[..i], m) + [Ranked(t[i].name, MetricOf(t[i].stats, m))];
    assert |a| == |b|;
    forall k | 0 <= k < |a|
      ensures a[k] == b[k]
    {
      assert t[..i + 1][k] == if k < i then t[..i][k] else t[i];
    }
  }

  lemma {:induction false} WithKeyPrefix(s: seq<Ranked>, n: int, v: real)
    requires 0 <= n <= |s|
    ensures Sorting.WithKey(s, RankValue, v)
         == Sorting.WithKey(s[..n], RankValue, v) + Sorting.WithKey(s[n..], RankValue, v)
  {
    Sorting.WithKeyAppend(s[..n], s[n..], RankValue, v);
    assert s[..n] + s[n..] == s;
  }

  /**
   * A ranking lists min(limit, n) districts for a non-negative limit (n + limit,
   * at least 0, for a negative one), in non-increasing metric order; districts
   * with equal metric keep their load order; an unknown region gives [].
   */
  lemma TopDistrictsSpec(index: StatisticsIndex, region: string, m: Metric, limit: int)
    ensures region !in index ==> TopDistricts(index, region, m, limit) == []
    ensures region in index ==>
      var all := RankedOf(index[region].districts, m);
      var r := TopDistricts(index, region, m, limit);
      |r| == SliceLength(|all|, limit)
      && Sorting.NonIncreasing(r, RankValue)
      && (forall x :: x in r ==> x in all)
      && (forall x, y :: x in all && x !in r && y in r ==> RankValue(x) <= RankValue(y))
      && TiesInLoadOrder(all, r)
  {
    if region in index {
      var all := RankedOf(index[region].districts, m);
      RankingSpec(all, limit);
      var r := TopDistricts(index, region, m, limit);
      forall v
        ensures Sorting.WithKey(r, RankValue, v) <= Sorting.WithKey(all, RankValue, v)
      {
        RankingStable(all, limit, v);
      }
    }
  }

  /** For every metric value, the ranked districts with that value are a prefix of them in load order. */
  ghost predicate TiesInLoadOrder(all: seq<Ranked>, r: seq<Ranked>)
  {
    forall v :: Sorting.WithKey(r, RankValue, v) <= Sorting.WithKey(all, RankValue, v)
  }

  /** The length of Python's `s[:limit]` for |s| == n. */
  function SliceLength(n: nat, limit: int): nat
  {
    if limit >= 0 then (if limit <= n then limit else n) else if n + limit >= 0 then n + limit else 0
  }

  lemma RankingSpec(all: seq<Ranked>, limit: int)
    ensures |SliceHead(Sorting.SortDesc(all, RankValue), limit)| == SliceLength(|all|, limit)
    ensures Sorting.NonIncreasing(SliceHead(Sorting.SortDesc(all, RankValue), limit), RankValue)
    ensures forall x :: x in SliceHead(Sorting.SortDesc(all, RankValue), limit) ==> x in all
    ensures forall x, y ::
              x in all && x !in SliceHead(Sorting.SortDesc(all, RankValue), limit)
              && y in SliceHead(Sorting.SortDesc(all, RankValue), limit)
              ==> RankValue(x) <= RankValue(y)
  {
    var sorted := Sorting.SortDesc(all, RankValue);
    Sorting.SortDescMembers(all, RankValue);
    Sorting.SortDescSorted(all, RankValue);
    PrefixFacts(all, sorted, limit);
    PrefixIsTop(all, sorted, limit);
  }

  /** Every district left out of the slice ranks no higher than any district in it. */
  lemma PrefixIsTop(all: seq<Ranked>, sorted: seq<Ranked>, limit: int)
    requires Sorting.NonIncreasing(sorted, RankValue)
    requires forall x :: x in sorted <==> x in all
    requires SliceHead(sorted, limit) == sorted[..|SliceHead(sorted, limit)|]
    ensures forall x, y ::
              x in all && x !in SliceHead(sorted, limit) && y in SliceHead(sorted, limit)
              ==> RankValue(x) <= RankValue(y)
  {
    var r := SliceHead(sorted, limit);
    var k := |r|;
    forall j | 0 <= j < k
      ensures sorted[j] in r
    {
      assert r[j] == sorted[j];
    }
    forall x, y | x in all && x !in r && y in r
      ensures RankValue(x) <= RankValue(y)
    {
      var j :| 0 <= j < |sorted| && sorted[j] == x;
      var i :| 0 <= i < k && r[i] == y;
      assert sorted[i] == y;
    }
  }

  lemma RankingStable(all: seq<Ranked>, limit: int, v: real)
    ensures Sorting.WithKey(SliceHead(Sorting.SortDesc(all, RankValue), limit), RankValue, v)
         <= Sorting.WithKey(all, RankValue, v)
  {
    var sorted := Sorting.SortDesc(all, RankValue);
    Sorting.SortDescMembers(all, RankValue);
    Sorting.SortDescSorted(all, RankValue);
    PrefixFacts(all, sorted, limit);
    Sorting.SortDescStable(all, RankValue, v);
    var k := |SliceHead(sorted, limit)|;
    WithKeyPrefix(sorted, k, v);
    assert Sorting.WithKey(all, RankValue, v)
        == Sorting.WithKey(SliceHead(sorted, limit), RankValue, v) + Sorting.WithKey(sorted[k..], RankValue, v);
  }

  lemma PrefixFacts(all: seq<Ranked>, sorted: seq<Ranked>, limit: int)
    requires |sorted| == |all| && Sorting.NonIncreasing(sorted, RankValue)
    requires forall x :: x in sorted <==> x in all
    ensures SliceHead(sorted, limit) == sorted[..|SliceHead(sorted, limit)|]
    ensures |SliceHead(sorted, limit)| == SliceLength(|all|, limit)
    ensures Sorting.NonIncreasing(SliceHead(sorted, limit), RankValue)
    ensures forall x :: x in SliceHead(sorted, limit) ==> x in all
  {
    var r := SliceHead(sorted, limit);
    forall a, b | 0 <= a < b < |r|
      ensures RankValue(r[a]) >= RankValue(r[b])
    {
      assert r[a] == sorted[a] && r[b] == sorted[b];
    }
    forall x | x in r
      ensures x in all
    {
      assert x in sorted;
    }
  }

  // ---------------------------------------------------------------------
  // Scores, bands and the recommendation

  /** Python's round(x, 1): the nearest tenth, a tie going to the even tenth. */
  function RoundTenth(x: real): (r: real)
    ensures x - 0.05 <= r <= x + 0.05
  {
    var scaled := x * 10.0;
    var f := scaled.Floor;
    var frac := scaled - f as real;
    var n := if frac < 0.5 then f else if frac > 0.5 then f + 1 else if f % 2 == 0 then f else f + 1;
    n as real / 10.0
  }

  lemma RoundTenthMonotone(x: real, y: real)
    requires x <= y
    ensures RoundTenth(x) <= RoundTenth(y)
  {
    var fx, fy := (x * 10.0).Floor, (y * 10.0).Floor;
    assert fx <= fy;
  }

  lemma RoundTenthExact(n: int)
    ensures RoundTenth(n as real / 10.0) == n as real / 10.0
  {
    assert (n as real / 10.0) * 10.0 == n as real;
  }

  function Min(a: real, b: real): real { if b < a then b else a }

  function ScoreOf(d: DistrictStats): real
  {
    RoundTenth(Min(d.saleRate * 2.0, 100.0) * 0.6 + d.salePriceRate * 0.4)
  }

  /** get_market_condition_score: 50.0 when the district is not found. */
  function MarketConditionScore(index: StatisticsIndex, region: string, query: string): real
  {
    match DistrictStatistics(index, region, query)
    case None => 50.0
    case Some(d) => ScoreOf(d)
  }

  /** With rates in [0, 100] the score lies in [0, 100]. */
  lemma ScoreBounds(d: DistrictStats)
    requires 0.0 <= d.saleRate <= 100.0 && 0.0 <= d.salePriceRate <= 100.0
    ensures 0.0 <= ScoreOf(d) <= 100.0
  {
    var raw := Min(d.saleRate * 2.0, 100.0) * 0.6 + d.salePriceRate * 0.4;
    RoundTenthMonotone(0.0, raw);
    RoundTenthMonotone(raw, 100.0);
    RoundTenthExact(0);
    RoundTenthExact(1000);
  }

  /** The score never drops when either rate rises. */
  lemma ScoreMonotone(d: DistrictStats, e: DistrictStats)
    requires d.saleRate <= e.saleRate && d.salePriceRate <= e.salePriceRate
    ensures ScoreOf(d) <= ScoreOf(e)
  {
    RoundTenthMonotone(Min(d.saleRate * 2.0, 100.0) * 0.6 + d.salePriceRate * 0.4,
                       Min(e.saleRate * 2.0, 100.0) * 0.6 + e.salePriceRate * 0.4);
  }

  lemma MarketScoreNotFound(index: StatisticsIndex, region: string, query: string)
    requires region !in index
    ensures MarketConditionScore(index, region, query) == 50.0
  {
  }

  function CompetitionBand(saleRate: real): string
  {
    if saleRate >= 35.0 then "매우 높음"
    else if saleRate >= 25.0 then "높음"
    else if saleRate >= 15.0 then "보통"
    else if saleRate >= 10.0 then "낮음"
    else "매우 낮음"
  }

  function CompetitionRank(band: string): int
  {
    if band == "매우 높음" then 4 else if band == "높음" then 3 else if band == "보통" then 2
    else if band == "낮음" then 1 else 0
  }

  /** get_competition_level: "보통" when the district is not found. */
  function CompetitionLevel(index: StatisticsIndex, region: string, query: string): string
  {
    match DistrictStatistics(index, region, query)
    case None => "보통"
    case Some(d) => CompetitionBand(d.saleRate)
  }

  /** A higher sale rate never gives a lower competition band. */
  lemma CompetitionMonotone(a: real, b: real)
    requires a <= b
    ensures CompetitionRank(CompetitionBand(a)) <= CompetitionRank(CompetitionBand(b))
  {
  }

  function RecommendationBand(score: real): (string, string)
  {
    if score >= 80.0 then ("매우 추천", "우수한 성과")
    else if score >= 65.0 then ("추천", "양호한 성과")
    else if score >= 50.0 then ("보통", "평균적 성과")
    else if score >= 35.0 then ("신중", "주의 필요")
    else ("비추천", "낮은 성과")
  }

  function RecommendationRank(band: string): int
  {
    if band == "매우 추천" then 4 else if band == "추천" then 3 else if band == "보통" then 2
    else if band == "신중" then 1 else 0
  }

  /** The reason text: 데이터 부족, or the two rates with the band's phrase. */
  datatype Reason = DataShortage | Performance(saleRate: real, salePriceRate: real, phrase: string)

  datatype Advice = Advice(
    recommendation: string,
    score: real,
    reason: Reason,
    competitionLevel: Option<string>,
    saleRate: Option<real>,
    salePriceRate: Option<real>)

  function InvestmentRecommendation(index: StatisticsIndex, region: string, query: string): Advice
  {
    match DistrictStatistics(index, region, query)
    case None => Advice("보통", 50.0, DataShortage, None, None, None)
    case Some(d) =>
      var score := MarketConditionScore(index, region, query);
      var band := RecommendationBand(score);
      Advice(band.0, score, Performance(d.saleRate, d.salePriceRate, band.1),
             Some(CompetitionLevel(index, region, query)), Some(d.saleRate), Some(d.salePriceRate))
  }

  /**
   * The recommendation agrees with the market score and competition level of
   * the same query, and a higher score never gives a lower recommendation.
   */
  lemma RecommendationAgrees(index: StatisticsIndex, region: string, query: string)
    ensures var a := InvestmentRecommendation(index, region, query);
      a.score == MarketConditionScore(index, region, query)
      && (DistrictStatistics(index, region, query).None? ==>
            a == Advice("보통", 50.0, DataShortage, None, None, None))
      && (DistrictStatistics(index, region, query).Some? ==>
            a.recommendation == RecommendationBand(a.score).0
            && a.competitionLevel == Some(CompetitionLevel(index, region, query)))
  {
  }

  lemma RecommendationMonotone(a: real, b: real)
    requires a <= b
    ensures RecommendationRank(RecommendationBand(a).0) <= RecommendationRank(RecommendationBand(b).0)
  {
  }

  /** A district with sale rate 30 and sale price rate 85 scores 70.0: 추천, competition 높음. */
  lemma ScoringScenario()
    ensures var d := DistrictStats(100, 30, 0, 0, 30.0, 85.0, 0.0, 0.0);
      var index := map["서울" := RegionData("서울", [Entry("강남구", d)], SummaryOf(0, 0, 0, 0))];
      var a := InvestmentRecommendation(index, "서울", "강남구");
      a.score == 70.0 && a.recommendation == "추천" && a.competitionLevel == Some("높음")
  {
    RoundTenthExact(700);
  }
}
