/** The sales queries of `app/routers/sales.py`: a month's reports with
    their running total, and a date range exported as a spreadsheet. */
module SalesRouter {
  import opened Wrappers
  import opened Dates
  import opened Sums
  import opened Models
  import opened Sorting
  import opened Parser

  const BadMonth := HttpError(400, "Invalid month format. Use YYYY-MM")
  /** `date(10000, 1, 1)` raises ValueError, which nothing catches. */
  const YearOverflow := HttpError(500, "Internal Server Error")
  const FutureExport := HttpError(400, "Cannot export future data.")
  const BackwardsRange := HttpError(400, "Start date cannot be after end date.")

  /** The first and last day of the month named "YYYY-MM": day 1, and the
      day before the first of the next month (for December, of January of
      the next year). */
  function MonthRange(month: string): Result<(Date, Date), HttpError> {
    match ParseYearMonth(month)
    case None => Err(BadMonth)
    case Some((y, m)) =>
      if m == 12 then
        if y + 1 > 9999 then Err(YearOverflow)
        else Ok((Date(y, m, 1), PrevDay(Date(y + 1, 1, 1))))
      else Ok((Date(y, m, 1), PrevDay(Date(y, m + 1, 1))))
  }

  /** A report of this user dated within [lo, hi]. */
  predicate InRange(r: SalesReport, userId: nat, lo: Date, hi: Date) {
    r.userId == userId && Ordinal(lo) <= Ordinal(r.reportDate) <= Ordinal(hi)
  }

  /** The query both routes run: the user's reports within [lo, hi], by
      ascending date. */
  function ReportsBetween(rs: seq<SalesReport>, userId: nat, lo: Date, hi: Date): seq<SalesReport> {
    SortBy(Filter(rs, (r: SalesReport) => InRange(r, userId, lo, hi)), (r: SalesReport) => Ordinal(r.reportDate))
  }

  // ------------------------------------------------------- monthly view

  /** One day of the monthly view. */
  datatype DailySummary = DailySummary(date: string, totalSales: int, platformSales: Buckets)

  datatype MonthlySales = MonthlySales(month: string, totalAccumulated: int, dailyLogs: seq<DailySummary>)

  function Summary(r: SalesReport): DailySummary {
    DailySummary(DateText(r.reportDate), r.totalSales, ReportSales(r))
  }

  function Summaries(rs: seq<SalesReport>): (s: seq<DailySummary>)
    ensures |s| == |rs|
  {
    seq(|rs|, i requires 0 <= i < |rs| => Summary(rs[i]))
  }

  /** The sum of the stored totals. */
  function TotalOf(rs: seq<SalesReport>): int {
    if rs == [] then 0 else TotalOf(rs[..|rs| - 1]) + rs[|rs| - 1].totalSales
  }

  /** `get_monthly_sales` for the signed-in user `db.users[me]`: one entry per
      report of the month, in date order, and the running total over them. */
  method GetMonthlySales(db: Db, me: nat, month: string) returns (r: Result<MonthlySales, HttpError>)
    requires me < |db.users|
    ensures MonthRange(month).Err? ==> r == Err(MonthRange(month).error)
    ensures MonthRange(month).Ok? ==>
      var rs := ReportsBetween(db.reports, db.users[me].id, MonthRange(month).value.0, MonthRange(month).value.1);
      r.Ok? && r.value.month == month
      && r.value.dailyLogs == Summaries(rs) && r.value.totalAccumulated == TotalOf(rs)
  {
    var range := MonthRange(month);
    if range.Err? {
      return Err(range.error);
    }
    var (lo, hi) := range.value;
    var reports := ReportsBetween(db.reports, db.users[me].id, lo, hi);
    var totalAccumulated, dailyLogs := Accumulate(reports);
    return Ok(MonthlySales(month, totalAccumulated, dailyLogs));
  }

  /** The loop of `get_monthly_sales`: the running total and one summary
      per report, in the reports' order. */
  method Accumulate(reports: seq<SalesReport>) returns (totalAccumulated: int, dailyLogs: seq<DailySummary>)
    ensures totalAccumulated == TotalOf(reports) && dailyLogs == Summaries(reports)
  {
    dailyLogs := [];
    totalAccumulated := 0;
    for i := 0 to |reports|
      invariant totalAccumulated == TotalOf(reports[..i])
      invariant dailyLogs == Summaries(reports[..i])
    {
      assert reports[..i + 1][..i] == reports[..i];
      totalAccumulated := totalAccumulated + reports[i].totalSales;
      dailyLogs := dailyLogs + [Summary(reports[i])];
    }
    assert reports[..|reports|] == reports;
  }

  // ------------------------------------------------------- export

  /** The produced workbook: sheet title, rows of cells, download file name. */
  datatype Export = Export(title: string, rows: seq<seq<Cell>>, filename: string)

  const ExportHeader: seq<Cell> := [Str("날짜"), Str("총매출"), Str("홀"), Str("배달의민족"), Str("쿠팡이츠"), Str("요기요")]

  function ExportRow(r: SalesReport): seq<Cell> {
    [Str(DateText(r.reportDate)), Num(r.totalSales), Num(r.hall), Num(r.baemin), Num(r.coupang), Num(r.yogiyo)]
  }

  function ExportName(lo: Date, hi: Date): string {
    "sales_" + DateText(lo) + "_" + DateText(hi) + ".xlsx"
  }

  /** `export_sales_excel` for the signed-in user `db.users[me]` on the day
      `today`: a range ending after today, or starting after its end, is
      refused; otherwise the sheet holds a header row and one row per report
      in the range, in date order. */
  method ExportSalesExcel(db: Db, me: nat, lo: Date, hi: Date, today: Date) returns (r: Result<Export, HttpError>)
    requires me < |db.users|
    ensures Ordinal(hi) > Ordinal(today) ==> r == Err(FutureExport)
    ensures Ordinal(hi) <= Ordinal(today) && Ordinal(lo) > Ordinal(hi) ==> r == Err(BackwardsRange)
    ensures Ordinal(lo) <= Ordinal(hi) <= Ordinal(today) ==>
      var rs := ReportsBetween(db.reports, db.users[me].id, lo, hi);
      r.Ok? && r.value.title == "매출내역" && r.value.filename == ExportName(lo, hi)
      && |r.value.rows| == |rs| + 1 && r.value.rows[0] == ExportHeader
      && forall i :: 0 <= i < |rs| ==> r.value.rows[i + 1] == ExportRow(rs[i])
  {
    if Ordinal(hi) > Ordinal(today) {
      return Err(FutureExport);
    }
    if Ordinal(lo) > Ordinal(hi) {
      return Err(BackwardsRange);
    }
    var reports := ReportsBetween(db.reports, db.users[me].id, lo, hi);
    var rows := SheetRows(reports);
    return Ok(Export("매출내역", rows, ExportName(lo, hi)));
  }

  /** The rows `ws.append` builds: the header, then one row per report. */
  method SheetRows(reports: seq<SalesReport>) returns (rows: seq<seq<Cell>>)
    ensures |rows| == |reports| + 1 && rows[0] == ExportHeader
    ensures forall i :: 0 <= i < |reports| ==> rows[i + 1] == ExportRow(reports[i])
  {
    rows := [ExportHeader];
    for i := 0 to |reports|
      invariant |rows| == i + 1 && rows[0] == ExportHeader
      invariant forall j :: 0 <= j < i ==> rows[j + 1] == ExportRow(reports[j])
    {
      rows := rows + [ExportRow(reports[i])];
    }
  }

  // ---------------------------------------------------------------- lemmas

  /** The month's range is exactly that month: it starts on day 1, ends on
      its last day, and a date lies within it exactly when it has that year
      and month. A malformed token is a 400; December 9999 has no next
      January and fails with 500. */
  lemma MonthRangeSpec(month: string)
    ensures ParseYearMonth(month).None? <==> MonthRange(month) == Err(BadMonth)
    ensures MonthRange(month) == Err(YearOverflow) <==> ParseYearMonth(month) == Some((9999, 12))
    ensures MonthRange(month).Ok? ==>
      var (y, m) := ParseYearMonth(month).value;
      var (lo, hi) := MonthRange(month).value;
      lo == Date(y, m, 1) && hi == Date(y, m, DaysInMonth(y, m)) && ValidDate(lo) && ValidDate(hi)
      && forall d :: ValidDate(d) ==> (Ordinal(lo) <= Ordinal(d) <= Ordinal(hi) <==> d.year == y && d.month == m)
  {
  }

  /** Round trip with the client's month token "%04d-%02d". */
  lemma MonthTokenRange(y: nat, m: nat)
    requires 1 <= y <= 9999 && 1 <= m <= 12 && (y, m) != (9999, 12)
    ensures MonthRange(YearMonthText(y, m)) == Ok((Date(y, m, 1), Date(y, m, DaysInMonth(y, m))))
  {
    ParseYearMonthText(y, m);
    MonthRangeSpec(YearMonthText(y, m));
  }

  /** The query returns exactly the user's reports dated within the range,
      each once, in ascending date order. */
  lemma ReportsBetweenSpec(rs: seq<SalesReport>, userId: nat, lo: Date, hi: Date)
    ensures var q := ReportsBetween(rs, userId, lo, hi);
      (forall r :: r in q <==> r in rs && InRange(r, userId, lo, hi))
      && (forall i, j :: 0 <= i < j < |q| ==> Ordinal(q[i].reportDate) <= Ordinal(q[j].reportDate))
      && (forall r :: multiset(q)[r] == if InRange(r, userId, lo, hi) then multiset(rs)[r] else 0)
  {
    var f := Filter(rs, (r: SalesReport) => InRange(r, userId, lo, hi));
    var q := ReportsBetween(rs, userId, lo, hi);
    forall r
      ensures r in q <==> r in rs && InRange(r, userId, lo, hi)
    {
      calc {
        r in q;
        multiset(q)[r] > 0;
        multiset(f)[r] > 0;
        r in f;
      }
    }
  }

  /** The running total equals the four channels summed over the same days:
      the stored totals are never trusted beyond the invariant that keeps
      them equal to their channels. */
  lemma {:induction false} TotalOfChannels(rs: seq<SalesReport>)
    requires forall i :: 0 <= i < |rs| ==> rs[i].totalSales == Total(ReportSales(rs[i]))
    ensures TotalOf(rs) == Total(Sum(seq(|rs|, i requires 0 <= i < |rs| => ReportSales(rs[i]))))
  {
    var xs := seq(|rs|, i requires 0 <= i < |rs| => ReportSales(rs[i]));
    if rs != [] {
      var p := rs[..|rs| - 1];
      TotalOfChannels(p);
      assert xs[..|xs| - 1] == seq(|p|, i requires 0 <= i < |p| => ReportSales(p[i]));
    }
  }

  /** The monthly total of a valid table is the channel sum of its days. */
  lemma MonthlyTotalIsChannelSum(rs: seq<SalesReport>, userId: nat, lo: Date, hi: Date)
    requires ReportsValid(rs)
    ensures var q := ReportsBetween(rs, userId, lo, hi);
      TotalOf(q) == Total(Sum(seq(|q|, i requires 0 <= i < |q| => ReportSales(q[i]))))
  {
    var q := ReportsBetween(rs, userId, lo, hi);
    ReportsBetweenSpec(rs, userId, lo, hi);
    assert forall i :: 0 <= i < |q| ==> q[i] in rs;
    TotalOfChannels(q);
  }

  /** Exporting a range lists the same days, in the same order and with the
      same totals and channel sums, as the monthly view of the same query
      result `q` (both routes run `ReportsBetween`). */
  lemma ExportAgreesWithMonthly(q: seq<SalesReport>, i: nat)
    requires i < |q|
    ensures var row, day := ExportRow(q[i]), Summaries(q)[i];
      row[0] == Str(day.date) && row[1] == Num(day.totalSales)
      && Buckets(row[2].value, row[3].value, row[4].value, row[5].value) == day.platformSales
  {
  }
}
