/** `SalesController.upload_sales` (`app/controllers/sales_controller.py`):
    the server decides the report date, the spreadsheet is parsed, the day's
    report of the store is created or overwritten with the parsed sums and a
    server-computed total, the manager is messaged, and the upload is
    logged. */
module SalesController {
  import opened Wrappers
  import opened Strings
  import opened Dates
  import opened Sums
  import opened Models
  import opened Sorting
  import opened Parser
  import opened Notification

  datatype UploadResult = Stored(report: SalesReport) | Refused(error: HttpError)

  const DateMismatch := HttpError(400, "Report date must match server today.")
  const ParseFailed := HttpError(400, "Excel parsing failed")

  /** The report date the server settles on: today when the client gave
      none, the given date when it is today, and a refusal (None)
      otherwise. */
  function FinalDate(requested: Option<Date>, today: Date): (d: Option<Date>)
    ensures d.Some? ==> d.value == today
    ensures d.None? <==> requested.Some? && requested.value != today
  {
    if requested.None? then Some(today)
    else if requested.value != today then None
    else requested
  }

  predicate HasReportKey(r: SalesReport, userId: nat, date: Date) {
    r.userId == userId && r.reportDate == date
  }

  /** The stored report of (user, date), if any. */
  function FindReport(rs: seq<SalesReport>, userId: nat, date: Date): Option<nat> {
    First(rs, (r: SalesReport) => HasReportKey(r, userId, date))
  }

  /** The report row holding `sales`, with the total recomputed from them. */
  function ReportRow(id: nat, userId: nat, date: Date, sales: Buckets): SalesReport {
    SalesReport(id, userId, date, sales.hall, sales.baemin, sales.coupang, sales.yogiyo, Total(sales))
  }

  /** The report table after storing `sales` for (user, date): the existing
      row keeps its id and gets the new values, or a row is appended. */
  function UpsertReport(rs: seq<SalesReport>, userId: nat, date: Date, sales: Buckets): seq<SalesReport> {
    match FindReport(rs, userId, date)
    case Some(k) => rs[k := ReportRow(rs[k].reportId, userId, date, sales)]
    case None => rs + [ReportRow(|rs| + 1, userId, date, sales)]
  }

  function ParseErrorLog(reason: string): SystemLog {
    SystemLog("UPLOAD", "ERROR", "SERVER", "Parse Error: " + reason, "FAIL", None)
  }

  function UploadLog(reportId: nat, total: int): SystemLog {
    SystemLog("UPLOAD", "INFO", "SERVER", "Upload & Parsing Success", "SUCCESS",
              Some("{\"report_id\": " + IntToString(reportId) + ", \"total\": " + IntToString(total) + "}"))
  }

  /** `upload_sales` for the signed-in user `db.users[me]`. A date other
      than today is refused before the file is looked at; the parser's own
      HTTP errors pass through unchanged and leave the database as it was;
      any other parse failure is logged and refused with 400. A parsed file
      overwrites (or creates) the one report of (user, today), the manager
      is messaged after the report is stored, and a success line is logged
      last. */
  method UploadSales(db: Db, me: nat, upload: Upload, requested: Option<Date>, clock: Clock, reply: ReportReply)
    returns (r: UploadResult)
    requires db.Valid() && me < |db.users| && ValidDate(clock.today)
    modifies db
    ensures db.Valid()
    ensures db.users == old(db.users) && db.releases == old(db.releases)
    ensures FinalDate(requested, clock.today).None? ==>
      r == Refused(DateMismatch) && unchanged(db)
    ensures FinalDate(requested, clock.today).Some? && Parse(upload, clock).Rejected? ==>
      r == Refused(Parse(upload, clock).error) && unchanged(db)
    ensures FinalDate(requested, clock.today).Some? && Parse(upload, clock).Crashed? ==>
      r == Refused(ParseFailed)
      && db.logs == old(db.logs) + [ParseErrorLog(Parse(upload, clock).reason)]
      && db.reports == old(db.reports) && db.notifications == old(db.notifications)
    ensures FinalDate(requested, clock.today).Some? && Parse(upload, clock).Parsed? ==>
      var sales := Parse(upload, clock).sales;
      var user := old(db.users[me]);
      db.reports == UpsertReport(old(db.reports), user.id, clock.today, sales)
      && r.Stored? && r.report in db.reports && HasReportKey(r.report, user.id, clock.today)
      && db.notifications == UpsertNotification(old(db.notifications), user.id, clock.today,
                                                ReportBody(user.storeName, r.report), reply, clock.stamp)
      && db.logs == old(db.logs) + [ReportLog(reply), UploadLog(r.report.reportId, Total(sales))]
  {
    var user := db.users[me];
    // Step 1: the server's date is authoritative.
    var finalDate := clock.today;
    if requested.Some? && requested.value != clock.today {
      return Refused(DateMismatch);
    }
    // Steps 2-5: parse.
    var parsed := ParseSalesFile(upload, clock);
    r := Conclude(db, user, parsed, finalDate, clock.stamp, reply);
  }

  /** Steps 6-9 of `upload_sales` for the parse outcome `parsed`, on the
      report date `date` at time `stamp`: a refusal passes through; a crash
      is logged and answered with 400; parsed sums are stored, reported to
      the manager and logged. */
  method Conclude(db: Db, user: User, parsed: Outcome, date: Date, stamp: int, reply: ReportReply) returns (r: UploadResult)
    requires db.Valid()
    modifies db
    ensures db.Valid()
    ensures db.users == old(db.users) && db.releases == old(db.releases)
    ensures parsed.Rejected? ==> r == Refused(parsed.error) && unchanged(db)
    ensures parsed.Crashed? ==>
      r == Refused(ParseFailed)
      && db.logs == old(db.logs) + [ParseErrorLog(parsed.reason)]
      && db.reports == old(db.reports) && db.notifications == old(db.notifications)
    ensures parsed.Parsed? ==>
      db.reports == UpsertReport(old(db.reports), user.id, date, parsed.sales)
      && r.Stored? && r.report in db.reports && HasReportKey(r.report, user.id, date)
      && db.notifications == UpsertNotification(old(db.notifications), user.id, date,
                                                ReportBody(user.storeName, r.report), reply, stamp)
      && db.logs == old(db.logs) + [ReportLog(reply), UploadLog(r.report.reportId, Total(parsed.sales))]
  {
    match parsed {
      case Rejected(e) =>
        return Refused(e);
      case Crashed(reason) =>
        db.logs := db.logs + [SystemLog("UPLOAD", "ERROR", "SERVER", "Parse Error: " + reason, "FAIL", None)];
        return Refused(ParseFailed);
      case Parsed(sales) =>
        var report := StoreReport(db, user.id, date, sales);
        // Step 8: message the manager; a failed delivery does not fail the upload.
        SendDailyReport(db, user, report, reply, stamp);
        // Step 9: log the upload.
        db.logs := db.logs + [UploadLog(report.reportId, report.totalSales)];
        return Stored(report);
    }
  }

  /** Steps 6 and 7 of `upload_sales`: the total is recomputed on the
      server, and the existing report of (user, date) is filled in, or a new
      one is added. */
  method StoreReport(db: Db, userId: nat, date: Date, sales: Buckets) returns (report: SalesReport)
    requires db.Valid()
    modifies db
    ensures db.Valid()
    ensures db.reports == UpsertReport(old(db.reports), userId, date, sales)
    ensures report in db.reports && HasReportKey(report, userId, date)
    ensures ReportSales(report) == sales && report.totalSales == Total(sales)
    ensures db.users == old(db.users) && db.notifications == old(db.notifications)
    ensures db.releases == old(db.releases) && db.logs == old(db.logs)
  {
    var total := sales.hall + sales.baemin + sales.coupang + sales.yogiyo;
    var found := FindReport(db.reports, userId, date);
    if found.None? {
      report := SalesReport(|db.reports| + 1, userId, date, 0, 0, 0, 0, 0);
    } else {
      report := db.reports[found.value];
    }
    report := report.(hall := sales.hall);
    report := report.(baemin := sales.baemin);
    report := report.(coupang := sales.coupang);
    report := report.(yogiyo := sales.yogiyo);
    report := report.(totalSales := total);
    if found.None? {
      db.reports := db.reports + [report];
      assert db.reports[|db.reports| - 1] == report;
    } else {
      db.reports := db.reports[found.value := report];
      assert db.reports[found.value] == report;
    }
    UpsertReportValid(old(db.reports), userId, date, sales);
  }

  /** The table keeps its constraints: ids, one report per (user, date), and
      every stored total equal to the sum of its channels. */
  lemma UpsertReportValid(rs: seq<SalesReport>, userId: nat, date: Date, sales: Buckets)
    requires ReportsValid(rs)
    ensures ReportsValid(UpsertReport(rs, userId, date, sales))
  {
    var rs' := UpsertReport(rs, userId, date, sales);
    match FindReport(rs, userId, date)
    case Some(k) =>
      assert forall i :: 0 <= i < |rs'| ==> HasReportKey(rs'[i], rs[i].userId, rs[i].reportDate);
    case None =>
      assert forall i :: 0 <= i < |rs| ==> !HasReportKey(rs[i], userId, date);
  }

  /** After an upload exactly one report of (user, date) exists, holding the
      parsed sums and their sum as total; an existing report is reused with
      its id, never duplicated. */
  lemma UpsertReportStores(rs: seq<SalesReport>, userId: nat, date: Date, sales: Buckets)
    requires ReportsValid(rs)
    ensures var rs' := UpsertReport(rs, userId, date, sales);
      exists k :: 0 <= k < |rs'| && HasReportKey(rs'[k], userId, date)
        && (forall i :: 0 <= i < |rs'| && HasReportKey(rs'[i], userId, date) ==> i == k)
        && ReportSales(rs'[k]) == sales && rs'[k].totalSales == Total(sales)
        && (FindReport(rs, userId, date).Some? ==> |rs'| == |rs| && rs'[k].reportId == rs[k].reportId)
  {
    var rs' := UpsertReport(rs, userId, date, sales);
    UpsertReportValid(rs, userId, date, sales);
    match FindReport(rs, userId, date)
    case Some(k) =>
      assert HasReportKey(rs'[k], userId, date);
    case None =>
      assert HasReportKey(rs'[|rs|], userId, date);
  }

  /** Reports of every other (user, date) are left as they were, and the
      only row that can be added is the one of (user, date). */
  lemma UpsertReportKeepsOthers(rs: seq<SalesReport>, userId: nat, date: Date, sales: Buckets)
    ensures var rs' := UpsertReport(rs, userId, date, sales);
      |rs| <= |rs'| <= |rs| + 1
      && (forall i :: 0 <= i < |rs| && !HasReportKey(rs[i], userId, date) ==> rs'[i] == rs[i])
      && (forall i :: |rs| <= i < |rs'| ==> HasReportKey(rs'[i], userId, date))
  {
  }

  /** Uploading again for the same day overwrites: the first upload's sums
      leave no trace, nothing is added up. */
  lemma UpsertReportOverwrites(rs: seq<SalesReport>, userId: nat, date: Date, first: Buckets, second: Buckets)
    ensures UpsertReport(UpsertReport(rs, userId, date, first), userId, date, second)
         == UpsertReport(rs, userId, date, second)
  {
    var once := UpsertReport(rs, userId, date, first);
    match FindReport(rs, userId, date)
    case Some(k) =>
      FirstIs(once, (r: SalesReport) => HasReportKey(r, userId, date), k);
    case None =>
      FirstIs(once, (r: SalesReport) => HasReportKey(r, userId, date), |rs|);
  }
}
