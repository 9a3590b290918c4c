/** The database tables of the service (`app/models/models.py`) and the
    constraints the schema puts on them.

    Every table is a sequence of rows in insertion order; rows are never
    deleted, so a row's autoincrement key is its position plus one. */
module Models {
  import opened Wrappers
  import opened Dates
  import opened Sums

  /** A store owner (or an administrator). `lastHeartbeat` is the time of
      the last liveness ping in microseconds, absent until the first one;
      `offlineNotified` records that the owner has been told the client
      went silent. */
  datatype User = User(
    id: nat,
    username: string,
    passwordHash: string,
    phone: string,
    storeName: string,
    role: string,
    lastHeartbeat: Option<int>,
    offlineNotified: bool)

  /** One business day's sales of one store. */
  datatype SalesReport = SalesReport(
    reportId: nat,
    userId: nat,
    reportDate: Date,
    hall: int,
    baemin: int,
    coupang: int,
    yogiyo: int,
    totalSales: int)

  /** A row of `system_logs`. */
  datatype SystemLog = SystemLog(
    kind: string,
    level: string,
    source: string,
    message: string,
    status: string,
    meta: Option<string>)

  /** The delivery record of one day's report message. `primaryStatus` is
      "SENT" or "FAIL" once a delivery has been attempted. */
  datatype ReportNotification = ReportNotification(
    notifId: nat,
    userId: nat,
    reportDate: Date,
    uploadStatus: string,
    primaryChannel: string,
    primaryStatus: Option<string>,
    primaryBody: Option<string>,
    errorMessage: Option<string>,
    updatedAt: Option<int>)

  /** A published client release. */
  datatype Release = Release(
    id: nat,
    version: string,
    description: Option<string>,
    downloadUrl: string,
    isMandatory: bool)

  /** The report's four channels as one value. */
  function ReportSales(r: SalesReport): Buckets {
    Buckets(r.hall, r.baemin, r.coupang, r.yogiyo)
  }

  // ------------------------------------------------------ table constraints

  /** `users`: autoincrement ids, usernames unique. */
  predicate UsersValid(us: seq<User>) {
    (forall i :: 0 <= i < |us| ==> us[i].id == i + 1)
    && (forall i, j :: 0 <= i < j < |us| ==> us[i].username != us[j].username)
  }

  /** `sales_reports`: autoincrement ids, one report per (user, date), and the
      stored total is the sum of the four channels. */
  predicate ReportsValid(rs: seq<SalesReport>) {
    (forall i :: 0 <= i < |rs| ==> rs[i].reportId == i + 1)
    && (forall i :: 0 <= i < |rs| ==> rs[i].totalSales == Total(ReportSales(rs[i])))
    && (forall i, j :: 0 <= i < j < |rs| ==>
          (rs[i].userId, rs[i].reportDate) != (rs[j].userId, rs[j].reportDate))
  }

  /** `report_notifications`: autoincrement ids, one record per (user, date);
      the only writer records a delivery attempt before a row is stored, so
      every stored row has a status. */
  predicate NotificationsValid(ns: seq<ReportNotification>) {
    (forall i :: 0 <= i < |ns| ==> ns[i].notifId == i + 1 && ns[i].primaryStatus.Some?)
    && (forall i, j :: 0 <= i < j < |ns| ==>
          (ns[i].userId, ns[i].reportDate) != (ns[j].userId, ns[j].reportDate))
  }

  /** `releases`: autoincrement ids, versions unique. */
  predicate ReleasesValid(vs: seq<Release>) {
    (forall i :: 0 <= i < |vs| ==> vs[i].id == i + 1)
    && (forall i, j :: 0 <= i < j < |vs| ==> vs[i].version != vs[j].version)
  }

  /** The database session: the five tables, changed in place by the
      controllers. */
  class Db {
    var users: seq<User>
    var reports: seq<SalesReport>
    var notifications: seq<ReportNotification>
    var releases: seq<Release>
    var logs: seq<SystemLog>

    predicate Valid()
      reads this`users, this`reports, this`notifications, this`releases
    {
      UsersValid(users) && ReportsValid(reports)
      && NotificationsValid(notifications) && ReleasesValid(releases)
    }

    /** A freshly created, empty database. */
    constructor ()
      ensures Valid()
      ensures users == [] && reports == [] && notifications == [] && releases == [] && logs == []
    {
      users := [];
      reports := [];
      notifications := [];
      releases := [];
      logs := [];
    }
  }
}
