/** `MonitoringService` (`app/services/monitoring.py`): the periodic sweep
    that alerts owners whose client stopped pinging, the nightly reset of
    the "already alerted" marks, and the log helper.

    The per-user state machine: a ping stamps `lastHeartbeat` and clears
    `offlineNotified`; the sweep sets `offlineNotified` for a silent user
    once the owner has been alerted; the nightly reset clears every mark.
    The provider's answer to the alert for user `id` is `replies(id)`. */
module Monitoring {
  import opened Wrappers
  import opened Strings
  import opened Models
  import opened Notification
  import opened AuthController

  /** 60 minutes, in microseconds: the silence after which a client counts
      as gone. */
  const StaleAfter := 60 * 60 * 1000000

  /** The sweep's query: a heartbeat older than the threshold (a user who
      never pinged has none and is never selected) and no alert yet. */
  predicate Stale(u: User, now: int) {
    u.lastHeartbeat.Some? && u.lastHeartbeat.value < now - StaleAfter && !u.offlineNotified
  }

  /** The positions of the users the sweep selects, in table order. */
  function Zombies(us: seq<User>, now: int): (z: seq<nat>)
    ensures forall k :: 0 <= k < |z| ==> z[k] < |us| && Stale(us[z[k]], now)
    ensures forall i :: 0 <= i < |us| && Stale(us[i], now) ==> i in z
    ensures forall k, l :: 0 <= k < l < |z| ==> z[k] < z[l]
  {
    if us == [] then []
    else
      var z := Zombies(us[..|us| - 1], now);
      assert forall i :: 0 <= i < |us| - 1 ==> us[..|us| - 1][i] == us[i];
      if Stale(us[|us| - 1], now) then z + [|us| - 1] else z
  }

  /** The users after the alerts to `ids` went out: those whose alert was
      delivered are marked, everyone else is as before. */
  function Marked(us: seq<User>, ids: seq<nat>, replies: nat -> SmsReply): (r: seq<User>)
    ensures |r| == |us|
  {
    seq(|us|, i requires 0 <= i < |us| =>
      if i in ids && AlertDelivered(us[i], replies(us[i].id)) then us[i].(offlineNotified := true) else us[i])
  }

  /** The users after one sweep at time `now`. */
  function Swept(us: seq<User>, now: int, replies: nat -> SmsReply): seq<User> {
    Marked(us, Zombies(us, now), replies)
  }

  function DetectedLog(u: User): SystemLog {
    SystemLog("ZOMBIE_SMS", "WARN", "SERVER", "Zombie detected & Sent: " + u.username + " (" + u.storeName + ")",
              "SUCCESS", Some("{\"user_id\": " + IntToString(u.id) + "}"))
  }

  /** The lines one alert adds: the sender's own, and on delivery the
      sweep's "detected" line. */
  function AlertLogs(u: User, reply: SmsReply): seq<SystemLog> {
    AlertLog(u, reply) + if AlertDelivered(u, reply) then [DetectedLog(u)] else []
  }

  /** The rows at positions `ids`, in that order. */
  function Picked(us: seq<User>, ids: seq<nat>): (r: seq<User>)
    requires forall k :: 0 <= k < |ids| ==> ids[k] < |us|
    ensures |r| == |ids|
  {
    seq(|ids|, k requires 0 <= k < |ids| => us[ids[k]])
  }

  /** The lines the alerts to the users `zs` add, in order. */
  function SweepLogs(zs: seq<User>, replies: nat -> SmsReply): seq<SystemLog> {
    if zs == [] then []
    else SweepLogs(zs[..|zs| - 1], replies) + AlertLogs(zs[|zs| - 1], replies(zs[|zs| - 1].id))
  }

  /** `log_event`: one SUCCESS line from the server. */
  method LogEvent(db: Db, kind: string, level: string, message: string, meta: Option<string>)
    modifies db
    ensures db.logs == old(db.logs) + [SystemLog(kind, level, "SERVER", message, "SUCCESS", meta)]
    ensures db.users == old(db.users) && db.reports == old(db.reports)
    ensures db.notifications == old(db.notifications) && db.releases == old(db.releases)
  {
    db.logs := db.logs + [SystemLog(kind, level, "SERVER", message, "SUCCESS", meta)];
  }

  /** `check_zombies` at time `now`: every selected user is alerted in turn;
      a delivered alert marks the user and adds a "detected" line, a failed
      one leaves the user unmarked so that the next sweep tries again. */
  method CheckZombies(db: Db, now: int, replies: nat -> SmsReply)
    requires db.Valid()
    modifies db
    ensures db.Valid()
    ensures db.users == Swept(old(db.users), now, replies)
    ensures db.logs == old(db.logs) + SweepLogs(Picked(old(db.users), Zombies(old(db.users), now)), replies)
    ensures db.reports == old(db.reports) && db.notifications == old(db.notifications)
    ensures db.releases == old(db.releases)
  {
    var zombies := Zombies(db.users, now);
    SweepAll(db, zombies, replies);
    SweptKeepsUsersValid(old(db.users), now, replies);
  }

  /** The loop of `check_zombies` over the selected positions `ids`. */
  method SweepAll(db: Db, ids: seq<nat>, replies: nat -> SmsReply)
    requires forall k :: 0 <= k < |ids| ==> ids[k] < |db.users|
    requires forall a, b :: 0 <= a < b < |ids| ==> ids[a] < ids[b]
    modifies db
    ensures db.users == Marked(old(db.users), ids, replies)
    ensures db.logs == old(db.logs) + SweepLogs(Picked(old(db.users), ids), replies)
    ensures db.reports == old(db.reports) && db.notifications == old(db.notifications)
    ensures db.releases == old(db.releases)
  {
    ghost var before := db.users;
    for k := 0 to |ids|
      invariant db.users == Marked(before, ids[..k], replies)
      invariant db.logs == old(db.logs) + SweepLogs(Picked(before, ids[..k]), replies)
      invariant db.reports == old(db.reports) && db.notifications == old(db.notifications)
      invariant db.releases == old(db.releases)
    {
      MarkedStep(before, ids, k, replies);
      SweepLogsStep(before, ids, k, replies);
      AlertZombie(db, ids[k], replies);
    }
    assert ids[..|ids|] == ids;
  }

  /** One turn of the sweep: alert the user at position `i`, and on delivery
      mark the user and log the detection. */
  method AlertZombie(db: Db, i: nat, replies: nat -> SmsReply)
    requires i < |db.users|
    modifies db
    ensures var u := old(db.users[i]);
      db.users == old(db.users)[i := if AlertDelivered(u, replies(u.id)) then u.(offlineNotified := true) else u]
      && db.logs == old(db.logs) + AlertLogs(u, replies(u.id))
    ensures db.reports == old(db.reports) && db.notifications == old(db.notifications)
    ensures db.releases == old(db.releases)
  {
    var user := db.users[i];
    var sent := SendZombieAlert(db, user, replies(user.id));
    if sent {
      db.users := db.users[i := user.(offlineNotified := true)];
      LogEvent(db, "ZOMBIE_SMS", "WARN", "Zombie detected & Sent: " + user.username + " (" + user.storeName + ")",
               Some("{\"user_id\": " + IntToString(user.id) + "}"));
    }
  }

  /** The users after the nightly reset: every mark cleared. */
  function ResetFlags(us: seq<User>): (r: seq<User>)
    ensures |r| == |us|
  {
    seq(|us|, i requires 0 <= i < |us| => us[i].(offlineNotified := false))
  }

  /** `daily_reset`: one bulk update clearing every user's mark. */
  method DailyReset(db: Db)
    requires db.Valid()
    modifies db
    ensures db.Valid()
    ensures db.users == ResetFlags(old(db.users))
    ensures db.reports == old(db.reports) && db.notifications == old(db.notifications)
    ensures db.releases == old(db.releases) && db.logs == old(db.logs)
  {
    db.users := ResetFlags(db.users);
  }

  // ---------------------------------------------------------------- lemmas

  /** Alerting the next selected user changes only that user's row. */
  lemma MarkedStep(us: seq<User>, ids: seq<nat>, k: nat, replies: nat -> SmsReply)
    requires k < |ids| && ids[k] < |us|
    requires forall a, b :: 0 <= a < b < |ids| ==> ids[a] < ids[b]
    ensures Marked(us, ids[..k], replies)[ids[k]] == us[ids[k]]
    ensures Marked(us, ids[..k + 1], replies) ==
      Marked(us, ids[..k], replies)[ids[k] := if AlertDelivered(us[ids[k]], replies(us[ids[k]].id))
                                             then us[ids[k]].(offlineNotified := true) else us[ids[k]]]
  {
    assert ids[k] !in ids[..k];
  }

  lemma SweepLogsStep(us: seq<User>, ids: seq<nat>, k: nat, replies: nat -> SmsReply)
    requires k < |ids| && forall j :: 0 <= j < |ids| ==> ids[j] < |us|
    ensures SweepLogs(Picked(us, ids[..k + 1]), replies) ==
      SweepLogs(Picked(us, ids[..k]), replies) + AlertLogs(us[ids[k]], replies(us[ids[k]].id))
  {
    var zs := Picked(us, ids[..k + 1]);
    assert zs[..k] == Picked(us, ids[..k]);
  }

  lemma SweptKeepsUsersValid(us: seq<User>, now: int, replies: nat -> SmsReply)
    requires UsersValid(us)
    ensures UsersValid(Swept(us, now, replies))
  {
    var r := Swept(us, now, replies);
    assert forall i :: 0 <= i < |us| ==> r[i].id == us[i].id && r[i].username == us[i].username;
  }

  /** What one sweep does to each user: a selected user (a heartbeat older
      than 60 minutes and no mark) whose alert was delivered gets the mark;
      every other user, and every heartbeat, is left as it was. */
  lemma SweepEffect(us: seq<User>, now: int, replies: nat -> SmsReply, i: nat)
    requires i < |us|
    ensures var u := Swept(us, now, replies)[i];
      u == if Stale(us[i], now) && AlertDelivered(us[i], replies(us[i].id))
           then us[i].(offlineNotified := true) else us[i]
    ensures Swept(us, now, replies)[i].lastHeartbeat == us[i].lastHeartbeat
  {
    if Stale(us[i], now) {
      assert i in Zombies(us, now);
    } else {
      assert i !in Zombies(us, now);
    }
  }

  /** An owner whose alert was delivered is not alerted again, however long
      the client stays silent, until a ping or the nightly reset. */
  lemma DeliveredIsNotReselected(us: seq<User>, now: int, replies: nat -> SmsReply, i: nat, later: int)
    requires i < |us| && Stale(us[i], now) && AlertDelivered(us[i], replies(us[i].id))
    ensures !Stale(Swept(us, now, replies)[i], later)
    ensures i !in Zombies(Swept(us, now, replies), later)
  {
    SweepEffect(us, now, replies, i);
  }

  /** A failed alert leaves the user selected: at the next sweep, or any
      later one, the same user is picked again. */
  lemma FailedIsRetried(us: seq<User>, now: int, replies: nat -> SmsReply, i: nat, later: int)
    requires i < |us| && Stale(us[i], now) && !AlertDelivered(us[i], replies(us[i].id))
    requires now <= later
    ensures Swept(us, now, replies)[i] == us[i]
    ensures i in Zombies(Swept(us, now, replies), later)
  {
    SweepEffect(us, now, replies, i);
  }

  /** With the provider answering the same way, a second sweep at the same
      moment leaves the users as the first left them; it selects, and so
      alerts and logs again, exactly the users whose first alert failed. */
  lemma SweepTwice(us: seq<User>, now: int, replies: nat -> SmsReply)
    ensures Swept(Swept(us, now, replies), now, replies) == Swept(us, now, replies)
    ensures forall i :: 0 <= i < |us| ==>
      (i in Zombies(Swept(us, now, replies), now) <==>
         i in Zombies(us, now) && !AlertDelivered(us[i], replies(us[i].id)))
  {
    var once := Swept(us, now, replies);
    var twice := Swept(once, now, replies);
    forall i | 0 <= i < |us|
      ensures twice[i] == once[i]
      ensures i in Zombies(once, now) <==> i in Zombies(us, now) && !AlertDelivered(us[i], replies(us[i].id))
    {
      SweepEffect(us, now, replies, i);
      SweepEffect(once, now, replies, i);
      ZombiesAt(us, now, i);
      ZombiesAt(once, now, i);
    }
  }

  /** A position is selected exactly when its user is stale. */
  lemma ZombiesAt(us: seq<User>, now: int, i: nat)
    requires i < |us|
    ensures i in Zombies(us, now) <==> Stale(us[i], now)
  {
    if i in Zombies(us, now) {
      var z := Zombies(us, now);
      var k :| 0 <= k < |z| && z[k] == i;
    }
  }

  /** The sweep's log, split at any point, is the log of the first part
      followed by that of the rest: each alert adds its own lines. */
  lemma {:induction false} SweepLogsSplit(a: seq<User>, b: seq<User>, replies: nat -> SmsReply)
    ensures SweepLogs(a + b, replies) == SweepLogs(a, replies) + SweepLogs(b, replies)
    decreases |b|
  {
    if b == [] {
      assert a + b == a;
    } else {
      var n := |b| - 1;
      assert (a + b)[..|a + b| - 1] == a + b[..n];
      SweepLogsSplit(a, b[..n], replies);
    }
  }

  /** A delivered alert adds the sender's SUCCESS line and the sweep's WARN
      "detected" line; an alert that was not delivered adds only the
      sender's lines, the last of them FAIL. */
  lemma AlertLogsShape(u: User, reply: SmsReply)
    ensures forall l :: l in AlertLogs(u, reply) ==> l.kind == "ZOMBIE_SMS"
    ensures AlertDelivered(u, reply) ==> AlertLogs(u, reply) == [AlertSentLog(u), DetectedLog(u)]
    ensures !AlertDelivered(u, reply) ==>
      AlertLogs(u, reply) == AlertLog(u, reply)
      && AlertLogs(u, reply)[|AlertLogs(u, reply)| - 1].status == "FAIL"
  {
    AlertLogMatchesOutcome(u, reply);
  }

  /** The nightly reset clears every mark and nothing else. */
  lemma ResetEffect(us: seq<User>, i: nat)
    requires i < |us|
    ensures !ResetFlags(us)[i].offlineNotified
    ensures ResetFlags(us)[i].(offlineNotified := us[i].offlineNotified) == us[i]
  {
  }

  /** Running the reset twice is the same as once. */
  lemma ResetIdempotent(us: seq<User>)
    ensures ResetFlags(ResetFlags(us)) == ResetFlags(us)
  {
  }

  /** After the reset, the next sweep selects exactly the users whose
      heartbeat is older than 60 minutes, alerted before or not. */
  lemma ResetReArms(us: seq<User>, now: int, i: nat)
    requires i < |us|
    ensures i in Zombies(ResetFlags(us), now) <==>
      us[i].lastHeartbeat.Some? && us[i].lastHeartbeat.value < now - StaleAfter
  {
  }

  /** Right after a ping a user is not selected; a user that pinged at `t`
      and stayed silent is selected exactly once more than 60 minutes have
      passed. */
  lemma BeatThenStale(u: User, t: int, now: int)
    ensures Stale(Beat(u, t), now) <==> t + StaleAfter < now
    ensures !Stale(Beat(u, t), t)
  {
  }

  /** Users who never pinged are never alerted. */
  lemma NeverPingedNeverAlerted(us: seq<User>, now: int, replies: nat -> SmsReply, i: nat)
    requires i < |us| && us[i].lastHeartbeat.None?
    ensures i !in Zombies(us, now)
    ensures Swept(us, now, replies)[i] == us[i]
  {
    SweepEffect(us, now, replies, i);
  }
}
