/** The report-history and release routes of `app/routers/system.py`. */
module SystemRouter {
  import opened Wrappers
  import opened Dates
  import opened Models
  import opened Sorting
  import opened Notification

  const NoReport := HttpError(404, "No report found for this date")
  const AdminsOnly := HttpError(403, "Only admins can publish releases")
  const DuplicateVersion := HttpError(400, "Version already exists")

  // ------------------------------------------------------- report history

  /** One line of the history list. */
  datatype HistoryItem = HistoryItem(reportDate: Date, uploadStatus: string, primaryStatus: Option<string>, sentAt: Option<int>)

  /** The detail of one day's delivery. */
  datatype ReportDetail = ReportDetail(item: HistoryItem, primaryBody: Option<string>, errorMessage: Option<string>)

  function Item(n: ReportNotification): HistoryItem {
    HistoryItem(n.reportDate, n.uploadStatus, n.primaryStatus, n.updatedAt)
  }

  /** `limit(days)`; a negative limit is no limit, as in SQLite. */
  function Limit<T>(s: seq<T>, days: int): seq<T> {
    if days < 0 then s else Take(s, days)
  }

  /** The sort key of `order_by(report_date.desc())`. */
  function NewestFirst(n: ReportNotification): int {
    -Ordinal(n.reportDate)
  }

  /** The user's records, in stored order. */
  function OwnRecords(ns: seq<ReportNotification>, userId: nat): seq<ReportNotification> {
    Filter(ns, (n: ReportNotification) => n.userId == userId)
  }

  /** The user's records, newest date first. */
  function UserRecords(ns: seq<ReportNotification>, userId: nat): seq<ReportNotification> {
    SortBy(OwnRecords(ns, userId), NewestFirst)
  }

  /** The user's records, newest date first, at most `days` of them. */
  function HistoryRecords(ns: seq<ReportNotification>, userId: nat, days: int): seq<ReportNotification> {
    Limit(UserRecords(ns, userId), days)
  }

  /** `get_report_history` for user `userId`. */
  function GetReportHistory(ns: seq<ReportNotification>, userId: nat, days: int): (r: seq<HistoryItem>)
    ensures |r| == |HistoryRecords(ns, userId, days)|
    ensures forall i :: 0 <= i < |r| ==>
      var n := HistoryRecords(ns, userId, days)[i];
      r[i].reportDate == n.reportDate && r[i].uploadStatus == n.uploadStatus
      && r[i].primaryStatus == n.primaryStatus && r[i].sentAt == n.updatedAt
  {
    var h := HistoryRecords(ns, userId, days);
    seq(|h|, i requires 0 <= i < |h| => Item(h[i]))
  }

  /** `get_report_detail` for user `userId` and one date. */
  function GetReportDetail(ns: seq<ReportNotification>, userId: nat, date: Date): Result<ReportDetail, HttpError> {
    match FindNotification(ns, userId, date)
    case None => Err(NoReport)
    case Some(k) => Ok(ReportDetail(Item(ns[k]), ns[k].primaryBody, ns[k].errorMessage))
  }

  // ------------------------------------------------------- releases

  datatype ReleaseInput = ReleaseInput(version: string, description: Option<string>, downloadUrl: string, isMandatory: bool)

  /** `get_releases`: every release, highest id first. */
  function GetReleases(vs: seq<Release>): seq<Release> {
    SortBy(vs, (v: Release) => -(v.id as int))
  }

  function FindRelease(vs: seq<Release>, version: string): Option<nat> {
    First(vs, (v: Release) => v.version == version)
  }

  /** The release row `create_release` inserts. */
  function NewRelease(id: nat, input: ReleaseInput): Release {
    Release(id, input.version, input.description, input.downloadUrl, input.isMandatory)
  }

  /** `create_release` by the signed-in user `db.users[me]`: only an
      administrator may publish, a version is published once, and a
      publication adds exactly one row with the given fields. */
  method CreateRelease(db: Db, me: nat, input: ReleaseInput) returns (r: Result<Release, HttpError>)
    requires db.Valid() && me < |db.users|
    modifies db
    ensures db.Valid()
    ensures old(db.users[me]).role != "ADMIN" ==> r == Err(AdminsOnly) && unchanged(db)
    ensures old(db.users[me]).role == "ADMIN" && FindRelease(old(db.releases), input.version).Some? ==>
      r == Err(DuplicateVersion) && unchanged(db)
    ensures old(db.users[me]).role == "ADMIN" && FindRelease(old(db.releases), input.version).None? ==>
      r == Ok(NewRelease(|old(db.releases)| + 1, input)) && db.releases == old(db.releases) + [r.value]
    ensures db.users == old(db.users) && db.reports == old(db.reports)
    ensures db.notifications == old(db.notifications) && db.logs == old(db.logs)
  {
    if db.users[me].role != "ADMIN" {
      return Err(AdminsOnly);
    }
    var existing := FindRelease(db.releases, input.version);
    if existing.Some? {
      return Err(DuplicateVersion);
    }
    var release := Release(|db.releases| + 1, input.version, input.description, input.downloadUrl, input.isMandatory);
    db.releases := db.releases + [release];
    return Ok(release);
  }

  // ---------------------------------------------------------------- lemmas

  /** History lists the `days` newest of the user's records (all of them
      when there are fewer, or when `days` is negative), each as often as
      stored, newest first: every record of the user it leaves out is no
      newer than any it lists. */
  lemma HistorySpec(ns: seq<ReportNotification>, userId: nat, days: int)
    ensures var h := HistoryRecords(ns, userId, days);
      var own := OwnRecords(ns, userId);
      (forall n :: n in h ==> n in ns && n.userId == userId)
      && multiset(h) <= multiset(own)
      && (days >= 0 ==> |h| == if days < |own| then days else |own|)
      && (days < 0 ==> multiset(h) == multiset(own))
      && (forall i, j :: 0 <= i < j < |h| ==> Ordinal(h[i].reportDate) >= Ordinal(h[j].reportDate))
      && (forall n, x :: n in ns && n.userId == userId && n !in h && x in h ==>
            Ordinal(n.reportDate) <= Ordinal(x.reportDate))
  {
    var s := UserRecords(ns, userId);
    var h := HistoryRecords(ns, userId, days);
    UserRecordsMembers(ns, userId);
    assert h == s[..|h|];
    assert s == h + s[|h|..];
    assert multiset(s) == multiset(h) + multiset(s[|h|..]);
    assert |s| == |OwnRecords(ns, userId)| by {
      assert |multiset(s)| == |multiset(OwnRecords(ns, userId))|;
    }
    forall n, x | n in ns && n.userId == userId && n !in h && x in h
      ensures Ordinal(n.reportDate) <= Ordinal(x.reportDate)
    {
      if days >= 0 {
        TakeKeepsSmallest(s, NewestFirst, days, n, x);
      }
    }
  }

  lemma UserRecordsMembers(ns: seq<ReportNotification>, userId: nat)
    ensures forall n :: n in UserRecords(ns, userId) <==> n in ns && n.userId == userId
  {
    SortByMembers(OwnRecords(ns, userId), NewestFirst);
  }

  /** The detail is refused with 404 exactly when the user has no record of
      that date; otherwise it shows that (only) record. */
  lemma DetailSpec(ns: seq<ReportNotification>, userId: nat, date: Date)
    requires NotificationsValid(ns)
    ensures GetReportDetail(ns, userId, date).Err? <==>
      forall i :: 0 <= i < |ns| ==> !HasKey(ns[i], userId, date)
    ensures GetReportDetail(ns, userId, date).Err? ==> GetReportDetail(ns, userId, date).error == NoReport
    ensures forall i :: 0 <= i < |ns| && HasKey(ns[i], userId, date) ==>
      GetReportDetail(ns, userId, date) == Ok(ReportDetail(Item(ns[i]), ns[i].primaryBody, ns[i].errorMessage))
  {
    match FindNotification(ns, userId, date)
    case None =>
    case Some(k) =>
      assert HasKey(ns[k], userId, date);
  }

  /** Publishing keeps versions unique and ids in step. */
  lemma NewReleaseKeepsValid(vs: seq<Release>, input: ReleaseInput)
    requires ReleasesValid(vs) && FindRelease(vs, input.version).None?
    ensures ReleasesValid(vs + [NewRelease(|vs| + 1, input)])
  {
    assert forall i :: 0 <= i < |vs| ==> vs[i].version != input.version;
  }

  /** The listing holds every release once, highest id first; with ids
      given in order of publication, the most recent release heads the
      list. */
  lemma ReleasesNewestFirst(vs: seq<Release>)
    requires ReleasesValid(vs)
    ensures multiset(GetReleases(vs)) == multiset(vs)
    ensures forall i, j :: 0 <= i < j < |GetReleases(vs)| ==> GetReleases(vs)[i].id >= GetReleases(vs)[j].id
    ensures vs != [] ==> GetReleases(vs)[0] == vs[|vs| - 1]
  {
    var s := GetReleases(vs);
    if vs != [] {
      var last := vs[|vs| - 1];
      assert multiset(s)[last] > 0;
      var j :| 0 <= j < |s| && s[j] == last;
      assert multiset(vs)[s[0]] > 0;
      var i :| 0 <= i < |vs| && vs[i] == s[0];
      assert s[0].id >= last.id;
    }
  }

  /** A release just published is listed first, and a second publication of
      the same version is refused. */
  lemma PublishedReleaseIsListedFirst(vs: seq<Release>, input: ReleaseInput)
    requires ReleasesValid(vs) && FindRelease(vs, input.version).None?
    ensures GetReleases(vs + [NewRelease(|vs| + 1, input)])[0] == NewRelease(|vs| + 1, input)
    ensures FindRelease(vs + [NewRelease(|vs| + 1, input)], input.version) == Some(|vs|)
  {
    var vs' := vs + [NewRelease(|vs| + 1, input)];
    NewReleaseKeepsValid(vs, input);
    ReleasesNewestFirst(vs');
    FirstIs(vs', (v: Release) => v.version == input.version, |vs|);
  }
}
