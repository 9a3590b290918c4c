/** `NotificationService` (`app/services/notification.py`): the daily sales
    message to the manager, the "client went silent" SMS to a store owner,
    and the plain SMS used by account recovery.

    The messaging provider is outside the model: what each request brought
    back is a parameter (`ReportReply`, `SmsReply`), and so is the clock. */
module Notification {
  import opened Wrappers
  import opened Strings
  import opened Dates
  import opened Sums
  import opened Models
  import opened Sorting

  /** What posting the report message and decoding the reply produced: a
      JSON object (with the provider's message id, if it sent one); JSON of
      another kind, on which looking up the message id raises with
      `message`; or the text of the exception raised before that (no
      connection, a body that is not JSON). */
  datatype ReportReply =
    | JsonObject(messageId: Option<string>)
    | NotAnObject(message: string)
    | PostRaised(message: string)

  /** The body of an SMS response: a JSON object, JSON of another kind (on
      which looking up the message id raises with `error`), or not JSON at
      all (the decoder raises with `error`). */
  datatype SmsBody = Object | NonObject(error: string) | NotJson(error: string)

  /** What posting an SMS produced: a response with its status code, its body
      text and what decoding that text gives; or the text of the exception
      the post raised. */
  datatype SmsReply =
    | Response(status: int, text: string, body: SmsBody)
    | PostFailed(message: string)

  // ------------------------------------------------------- daily report

  /** The message text: store, date, the total and the four channels, each
      amount with thousands separators. */
  function ReportBody(storeName: string, r: SalesReport): string {
    "[" + storeName + "] " + DateText(r.reportDate) + " 일일매출\n"
    + "총 : " + Thousands(r.totalSales) + "\n\n"
    + "홀 : " + Thousands(r.hall) + "\n"
    + "배민 : " + Thousands(r.baemin) + "\n"
    + "쿠팡 : " + Thousands(r.coupang) + "\n"
    + "요기요 : " + Thousands(r.yogiyo) + "\n"
    + "입니다."
  }

  predicate HasKey(n: ReportNotification, userId: nat, date: Date) {
    n.userId == userId && n.reportDate == date
  }

  /** The stored record of (user, date), if any. */
  function FindNotification(ns: seq<ReportNotification>, userId: nat, date: Date): Option<nat> {
    First(ns, (n: ReportNotification) => HasKey(n, userId, date))
  }

  /** A record as it is first created: received, to go out by AlimTalk. */
  function NewRecord(id: nat, userId: nat, date: Date): ReportNotification {
    ReportNotification(id, userId, date, "RECEIVED", "ALIMTALK", None, None, None, None)
  }

  /** The record after a delivery attempt at time `now`. A reply that is
      JSON but not an object fails after the body has been recorded, so the
      record is FAIL and still holds the body. */
  function Attempted(n: ReportNotification, body: string, reply: ReportReply, now: int): ReportNotification {
    match reply
    case JsonObject(_) => n.(primaryStatus := Some("SENT"), primaryBody := Some(body), updatedAt := Some(now))
    case NotAnObject(msg) =>
      n.(primaryStatus := Some("FAIL"), primaryBody := Some(body), errorMessage := Some(msg), updatedAt := Some(now))
    case PostRaised(msg) => n.(primaryStatus := Some("FAIL"), errorMessage := Some(msg), updatedAt := Some(now))
  }

  /** The notification table after `send_daily_report` for (user, date): the
      existing record is updated, or a new one is appended. */
  function UpsertNotification(ns: seq<ReportNotification>, userId: nat, date: Date,
                              body: string, reply: ReportReply, now: int): seq<ReportNotification>
  {
    match FindNotification(ns, userId, date)
    case Some(k) => ns[k := Attempted(ns[k], body, reply, now)]
    case None => ns + [Attempted(NewRecord(|ns| + 1, userId, date), body, reply, now)]
  }

  /** The single log line of a delivery attempt. */
  function ReportLog(reply: ReportReply): SystemLog {
    match reply
    case JsonObject(_) => SystemLog("ALIMTALK", "INFO", "SERVER", "Daily report sent", "SUCCESS", None)
    case NotAnObject(msg) => SystemLog("ALIMTALK", "ERROR", "SERVER", "Fail: " + msg, "FAIL", None)
    case PostRaised(msg) => SystemLog("ALIMTALK", "ERROR", "SERVER", "Fail: " + msg, "FAIL", None)
  }

  /** `send_daily_report`: never raises; whatever the provider does, the
      record of (user, report date) ends up holding the outcome and one log
      line is added. */
  method SendDailyReport(db: Db, user: User, report: SalesReport, reply: ReportReply, now: int)
    requires db.Valid()
    modifies db
    ensures db.Valid()
    ensures db.notifications ==
      UpsertNotification(old(db.notifications), user.id, report.reportDate,
                         ReportBody(user.storeName, report), reply, now)
    ensures db.logs == old(db.logs) + [ReportLog(reply)]
    ensures db.users == old(db.users) && db.reports == old(db.reports) && db.releases == old(db.releases)
  {
    var body := ReportBody(user.storeName, report);
    var found := FindNotification(db.notifications, user.id, report.reportDate);
    var notif;
    if found.None? {
      notif := NewRecord(|db.notifications| + 1, user.id, report.reportDate);
    } else {
      notif := db.notifications[found.value];
    }
    match reply {
      case JsonObject(_) =>
        notif := notif.(primaryStatus := Some("SENT"));
        notif := notif.(primaryBody := Some(body));
        notif := notif.(updatedAt := Some(now));
        db.logs := db.logs + [SystemLog("ALIMTALK", "INFO", "SERVER", "Daily report sent", "SUCCESS", None)];
      case NotAnObject(msg) =>
        notif := notif.(primaryStatus := Some("SENT"));
        notif := notif.(primaryBody := Some(body));
        // Reading the message id raises here.
        notif := notif.(primaryStatus := Some("FAIL"));
        notif := notif.(errorMessage := Some(msg));
        notif := notif.(updatedAt := Some(now));
        db.logs := db.logs + [SystemLog("ALIMTALK", "ERROR", "SERVER", "Fail: " + msg, "FAIL", None)];
      case PostRaised(msg) =>
        notif := notif.(primaryStatus := Some("FAIL"));
        notif := notif.(errorMessage := Some(msg));
        notif := notif.(updatedAt := Some(now));
        db.logs := db.logs + [SystemLog("ALIMTALK", "ERROR", "SERVER", "Fail: " + msg, "FAIL", None)];
    }
    if found.None? {
      db.notifications := db.notifications + [notif];
    } else {
      db.notifications := db.notifications[found.value := notif];
    }
    UpsertNotificationValid(old(db.notifications), user.id, report.reportDate, body, reply, now);
  }

  /** The table keeps its constraints: ids, one record per key, a status on every row. */
  lemma UpsertNotificationValid(ns: seq<ReportNotification>, userId: nat, date: Date,
                                body: string, reply: ReportReply, now: int)
    requires NotificationsValid(ns)
    ensures NotificationsValid(UpsertNotification(ns, userId, date, body, reply, now))
  {
    var ns' := UpsertNotification(ns, userId, date, body, reply, now);
    match FindNotification(ns, userId, date)
    case Some(k) =>
      assert forall i :: 0 <= i < |ns'| ==> HasKey(ns'[i], ns[i].userId, ns[i].reportDate);
    case None =>
      assert forall i :: 0 <= i < |ns| ==> !HasKey(ns[i], userId, date);
  }

  /** After the call exactly one record of (user, date) exists; a new one
      starts as RECEIVED on AlimTalk, an existing one keeps its upload status
      and channel; the status is SENT exactly when the provider answered
      with a JSON object, and FAIL with the error text otherwise; the
      composed body is recorded whenever the reply decoded as JSON. */
  lemma UpsertNotificationRecord(ns: seq<ReportNotification>, userId: nat, date: Date,
                                 body: string, reply: ReportReply, now: int)
    requires NotificationsValid(ns)
    ensures var ns' := UpsertNotification(ns, userId, date, body, reply, now);
      exists k :: 0 <= k < |ns'| && HasKey(ns'[k], userId, date)
        && (forall i :: 0 <= i < |ns'| && HasKey(ns'[i], userId, date) ==> i == k)
        && ns'[k].updatedAt == Some(now)
        && (ns'[k].primaryStatus == Some("SENT") <==> reply.JsonObject?)
        && (!reply.PostRaised? ==> ns'[k].primaryBody == Some(body))
        && (!reply.JsonObject? ==> ns'[k].primaryStatus == Some("FAIL")
                                   && ns'[k].errorMessage == Some(reply.message))
        && (k < |ns| ==> ns'[k].uploadStatus == ns[k].uploadStatus
                         && ns'[k].primaryChannel == ns[k].primaryChannel)
        && (k == |ns| ==> ns'[k].uploadStatus == "RECEIVED" && ns'[k].primaryChannel == "ALIMTALK")
  {
    var ns' := UpsertNotification(ns, userId, date, body, reply, now);
    UpsertNotificationValid(ns, userId, date, body, reply, now);
    match FindNotification(ns, userId, date)
    case Some(k) =>
      assert HasKey(ns'[k], userId, date);
    case None =>
      assert HasKey(ns'[|ns|], userId, date);
  }

  /** Records of every other (user, date) are left as they were, and at most
      one row is added. */
  lemma UpsertNotificationKeepsOthers(ns: seq<ReportNotification>, userId: nat, date: Date,
                                      body: string, reply: ReportReply, now: int)
    ensures var ns' := UpsertNotification(ns, userId, date, body, reply, now);
      |ns| <= |ns'| <= |ns| + 1
      && (forall i :: 0 <= i < |ns| && !HasKey(ns[i], userId, date) ==> ns'[i] == ns[i])
      && (forall i :: |ns| <= i < |ns'| ==> HasKey(ns'[i], userId, date))
  {
  }

  /** Sending the same report twice with the same outcome leaves the table
      as sending it once: the second call finds and overwrites the record. */
  lemma UpsertNotificationTwice(ns: seq<ReportNotification>, userId: nat, date: Date,
                                body: string, reply: ReportReply, now: int)
    ensures var once := UpsertNotification(ns, userId, date, body, reply, now);
      UpsertNotification(once, userId, date, body, reply, now) == once
  {
    var once := UpsertNotification(ns, userId, date, body, reply, now);
    match FindNotification(ns, userId, date)
    case Some(k) =>
      FirstIs(once, (n: ReportNotification) => HasKey(n, userId, date), k);
    case None =>
      FirstIs(once, (n: ReportNotification) => HasKey(n, userId, date), |ns|);
  }

  /** The log line agrees with the stored status. */
  lemma ReportLogMatchesRecord(reply: ReportReply, n: ReportNotification, body: string, now: int)
    ensures ReportLog(reply).kind == "ALIMTALK"
    ensures Some(ReportLog(reply).status) == if Attempted(n, body, reply, now).primaryStatus == Some("SENT")
                                               then Some("SUCCESS") else Some("FAIL")
  {
  }

  // ------------------------------------------------------- silent-client SMS

  /** The SMS text sent to the owner of a store whose client went silent. */
  function AlertText(storeName: string): string {
    "[" + storeName + "] 베지나이가 종료되었습니다. 다시 켜주세요."
  }

  /** `send_zombie_alert` reports success: the user has a phone number, the
      provider answered 200 and its body decoded as a JSON object. */
  predicate AlertDelivered(u: User, reply: SmsReply) {
    u.phone != "" && reply.Response? && reply.status == 200 && reply.body.Object?
  }

  function AlertFailLog(message: string): SystemLog {
    SystemLog("ZOMBIE_SMS", "ERROR", "SERVER", message, "FAIL", None)
  }

  function AlertSentLog(u: User): SystemLog {
    SystemLog("ZOMBIE_SMS", "WARN", "SERVER", "Zombie Alert sent to " + u.storeName, "SUCCESS",
              Some("{\"user_id\": " + IntToString(u.id) + ", \"phone\": \"" + u.phone + "\"}"))
  }

  /** The log lines `send_zombie_alert` adds. A 200 answer whose body is JSON
      but not an object is logged as sent and then, when the message id is
      read from it, as failed. */
  function AlertLog(u: User, reply: SmsReply): seq<SystemLog> {
    if u.phone == "" then
      [AlertFailLog("User " + u.username + " (" + u.storeName + ") has no phone number.")]
    else match reply
      case PostFailed(msg) => [AlertFailLog(msg)]
      case Response(status, text, body) =>
        if status != 200 then [AlertFailLog("Solapi API Error: " + text)]
        else match body
          case NotJson(e) => [AlertFailLog(e)]
          case NonObject(e) => [AlertSentLog(u), AlertFailLog(e)]
          case Object => [AlertSentLog(u)]
  }

  /** `send_zombie_alert`: a user without a phone number is refused before
      anything is sent; otherwise the SMS counts as sent only on a 200
      answer whose body is a JSON object. Nothing but the log changes. */
  method SendZombieAlert(db: Db, u: User, reply: SmsReply) returns (sent: bool)
    modifies db
    ensures sent == AlertDelivered(u, reply)
    ensures db.logs == old(db.logs) + AlertLog(u, reply)
    ensures db.users == old(db.users) && db.reports == old(db.reports)
    ensures db.notifications == old(db.notifications) && db.releases == old(db.releases)
  {
    if u.phone == "" {
      var message := "User " + u.username + " (" + u.storeName + ") has no phone number.";
      db.logs := db.logs + [SystemLog("ZOMBIE_SMS", "ERROR", "SERVER", message, "FAIL", None)];
      return false;
    }
    var failure: Option<string> := None;
    match reply {
      case PostFailed(msg) =>
        failure := Some(msg);
      case Response(status, text, body) =>
        if status != 200 {
          failure := Some("Solapi API Error: " + text);
        } else if body.NotJson? {
          failure := Some(body.error);
        }
    }
    if failure.None? {
      var meta := "{\"user_id\": " + IntToString(u.id) + ", \"phone\": \"" + u.phone + "\"}";
      db.logs := db.logs + [SystemLog("ZOMBIE_SMS", "WARN", "SERVER", "Zombie Alert sent to " + u.storeName,
                                      "SUCCESS", Some(meta))];
      if reply.body.Object? {
        return true;
      }
      // Reading the message id from a body that is not an object raises.
      failure := Some(reply.body.error);
    }
    db.logs := db.logs + [SystemLog("ZOMBIE_SMS", "ERROR", "SERVER", failure.value, "FAIL", None)];
    return false;
  }

  /** Without a phone number the provider is never involved: the outcome and
      the log are the same whatever it would have answered. */
  lemma NoPhoneNoSend(u: User, r1: SmsReply, r2: SmsReply)
    requires u.phone == ""
    ensures !AlertDelivered(u, r1)
    ensures AlertLog(u, r1) == AlertLog(u, r2) && |AlertLog(u, r1)| == 1 && AlertLog(u, r1)[0].status == "FAIL"
  {
  }

  /** The last log line says SUCCESS exactly when the alert counts as sent;
      a SUCCESS line is written exactly when the provider answered 200 with
      JSON, and a failure leaves a FAIL line last. */
  lemma AlertLogMatchesOutcome(u: User, reply: SmsReply)
    ensures 1 <= |AlertLog(u, reply)| <= 2
    ensures forall l :: l in AlertLog(u, reply) ==> l.kind == "ZOMBIE_SMS"
    ensures AlertLog(u, reply)[|AlertLog(u, reply)| - 1].status == "SUCCESS" <==> AlertDelivered(u, reply)
    ensures AlertLog(u, reply)[|AlertLog(u, reply)| - 1].status == "FAIL" <==> !AlertDelivered(u, reply)
    ensures AlertLog(u, reply)[0].status == "SUCCESS" <==>
      u.phone != "" && reply.Response? && reply.status == 200 && !reply.body.NotJson?
  {
  }

  // ------------------------------------------------------- plain SMS

  /** `send_generic_sms` of `text` to `phone`: it reports success on a 200
      answer, whatever the body says (even an empty phone number is posted
      as it is), and failure when posting raised. */
  function SendGenericSms(phone: string, text: string, reply: SmsReply): (sent: bool)
    ensures reply.PostFailed? ==> !sent
    ensures reply.Response? ==> (sent <==> reply.status == 200)
  {
    match reply
    case Response(status, _, _) => status == 200
    case PostFailed(_) => false
  }

  /** An owner's alert counts as sent exactly when a plain SMS to the same
      phone would, provided the owner has a phone and the answer is a JSON
      object. */
  lemma AlertAgreesWithGenericSms(u: User, text: string, reply: SmsReply)
    ensures AlertDelivered(u, reply) <==>
      u.phone != "" && SendGenericSms(u.phone, text, reply) && reply.body.Object?
    ensures reply.PostFailed? ==> !SendGenericSms(u.phone, text, reply) && !AlertDelivered(u, reply)
  {
  }
}
