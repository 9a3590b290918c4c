# Vegenie sales-reporting server, modelled in Dafny

Vegenie is the server side of a small point-of-sale reporting service for
restaurant owners. Once a day a store's client uploads the day's sales
export (an Excel workbook). The server then:

- reads the workbook and sums the amounts into four channels: hall (cash,
  card, QR, transfer), Baemin, Coupang Eats and Yogiyo;
- stores one report per store and day, with the total recomputed on the
  server;
- messages the day's figures to the manager, and records the delivery
  attempt per store and day.

The client also pings the server regularly. A periodic sweep sends an SMS
to owners whose client went silent for more than 60 minutes, and marks them
so that they are alerted once; a nightly job clears the marks. Owners
register, sign in and edit their phone number and store name. They can see
a month's reports with a running total, export a date range as a
spreadsheet, and read the delivery history of the daily messages.
Administrators publish client releases.

The project has one module per source file of the core, plus five support
modules:

| file | module | models |
|---|---|---|
| `parser.dfy` | `Parser` | `ExcelParser.parse_sales_file` |
| `sales_controller.dfy` | `SalesController` | `upload_sales` |
| `notification.dfy` | `Notification` | `send_daily_report`, `send_zombie_alert`, `send_generic_sms` |
| `monitoring.dfy` | `Monitoring` | `log_event`, `check_zombies`, `daily_reset` |
| `auth_controller.dfy` | `AuthController` | `register_user`, `login_user`, `process_heartbeat` |
| `user_controller.dfy` | `UserController` | `update_profile` |
| `sales_router.dfy` | `SalesRouter` | `get_monthly_sales`, `export_sales_excel` |
| `system_router.dfy` | `SystemRouter` | `get_report_history`, `get_report_detail`, `get_releases`, `create_release` |
| `models.dfy` | `Models` | the tables and their key constraints |
| `wrappers.dfy`, `strings.dfy`, `dates.dfy`, `sorting.dfy`, `sums.dfy` | | Option/Result and HTTP errors, Python string and number formatting, calendar dates, query helpers (`first`, `filter`, `order_by`, `limit`), the four-channel sums |

The database session is a class `Models.Db` whose fields are the five
tables, each a sequence of rows in insertion order. Rows are never deleted,
so a row's autoincrement key is its position plus one. `Db.Valid()` holds
the schema's constraints:

- ids are in step with positions;
- usernames and release versions are unique;
- there is one report and one delivery record per (user, date);
- every stored delivery record has a status;
- every stored total equals the sum of its four channels.

Every state-changing operation is a method with `modifies db`. It keeps
`Valid()` and states its new state through pure functions (`UpsertReport`,
`UpsertNotification`, `Swept`, `SweepLogs`, `ResetFlags`, `ApplyProfile`,
...), and the lemmas prove the properties about those functions. The
signed-in user is `db.users[me]`.

Inputs from outside the program are parameters:

- the clock (`Dates.Clock`: a microsecond stamp, today's date and the hour);
- the messaging provider's replies (`Notification.ReportReply`, and
  `Notification.SmsReply` per user id for the sweep);
- the password hash of a new user, and the password check (an arbitrary
  predicate);
- the workbook, already read into a sheet of cells.

Where the code and its design notes disagree, the model follows the code:

- there are no quiet hours for the alert, and no "already pinged today" guard;
- a failed alert leaves the user unmarked, so the next sweep retries;
- negative amounts are added like any other;
- the daily message is marked SENT whenever the provider's reply is a JSON
  object, whatever it says.

## Model

| member | source | states |
|---|---|---|
| Parser.ParseSalesFile | app/services/parser.py:11-145 | The outcome is `Parse(upload, clock)`. A file name containing neither marker is refused with the fixed 400 before the content is looked at. Only a sheet can be parsed. A reader crash, and only that, escapes as a crash. A sheet is refused exactly when it has a header row that is not its last row and its date is not accepted. |
| Parser.FindHeaderRow | app/services/parser.py:42-47 | The scan returns the first row whose filled cells, joined by spaces, contain "결제수단별", or none. |
| Parser.FirstHeaderRow | app/services/parser.py:42-47 | The row found is a header row, and no earlier row is one; none means no row is one. |
| Parser.ToFrame | app/services/parser.py:37 | The frame has the sheet's rows, each padded with blank cells to the widest row's width. |
| Parser.DateGate | app/services/parser.py:53-87 | No refusal exactly when the sheet carries no date, the date is today, or it is yesterday and the hour is before 12. Every refusal is a 400. |
| Parser.CellDate | app/services/parser.py:55-62 | A date read from a text cell (stripped, dots taken as dashes, "%Y-%m-%d") is always a valid calendar date; a date cell gives its own date. |
| Parser.BuildColumns | app/services/parser.py:90-99 | Each column gets the nearest group label at or left of it, and its own stripped sub-header. |
| Parser.GroupAtNearestLabel | app/services/parser.py:95-97 | A column belongs to the last filled top-row label at or left of it. |
| Parser.GroupAtBeforeAnyLabel | app/services/parser.py:93-97 | Columns left of every label belong to no group. |
| Parser.ClassifyCases | app/services/parser.py:107-138 | Hall takes the four payment methods by exact name. An acquirer column goes to the first of Baemin, Coupang, Yogiyo that has a keyword in its lower-cased name. Nothing else is classified. |
| Parser.Book | app/services/parser.py:128-138 | The running totals grow by the amount in the column's channel only. |
| Parser.TallyCell | app/services/parser.py:115-138 | A cell adds its share: nothing when it is blank, unreadable or zero, or when its column has no channel. |
| Parser.TallyRow | app/services/parser.py:115-138 | A row adds the sum of its cells' shares. |
| Parser.Aggregate | app/services/parser.py:102-138 | The four totals are the sum over the data rows, with blank rows skipped. |
| Parser.RowTotalCases | app/services/parser.py:113 | A row the parser skips adds nothing; any other row adds its cells' shares. |
| Parser.BlankRowTest | app/services/parser.py:113 | The parser's skip test holds exactly when every filled cell is white space only. |
| Parser.BlankRowSkipIsHarmless | app/services/parser.py:113-126 | Skipping blank rows changes no sum. |
| Parser.UnmappedChannelIsZero | app/services/parser.py:128-138 | A channel that no column maps to sums to zero. |
| Parser.UnmappedColumnIsIgnored | app/services/parser.py:111-138 | Whatever a column without a channel holds, the sums are the same. |
| Parser.RowsTotalSplit | app/services/parser.py:111-138 | The sums are additive over consecutive blocks of rows. |
| Parser.CleanNumberText | app/services/parser.py:123 | A text that parses as an integer keeps its value, with or without a trailing "원". |
| Parser.NumberCellAmount | app/services/parser.py:119-123 | A number cell counts with its own value. |
| Parser.WonAmountRoundTrip | app/services/parser.py:123 | An amount written as `f"{n:,}원"` reads back as n. |
| SalesController.UploadSales | app/controllers/sales_controller.py:11-84 | A date other than today is refused before parsing, and nothing changes. The parser's HTTP errors pass through, and nothing changes. A crash logs one FAIL line and gives 400. A parse stores the upserted report for (user, today), messages the manager about that report, then logs the upload with the report id and total. |
| SalesController.FinalDate | app/controllers/sales_controller.py:15-24 | The settled date is always today; it is refused exactly when the client named another date. |
| SalesController.Conclude | app/controllers/sales_controller.py:29-82 | Each parse outcome leads to its own tables and log lines, and the database stays valid. |
| SalesController.StoreReport | app/controllers/sales_controller.py:42-63 | The report of (user, date) holds the parsed channels and a total recomputed on the server. The table is the upsert and stays valid. |
| SalesController.UpsertReportValid | app/controllers/sales_controller.py:47-63 | Storing a report keeps ids in step, keeps one report per (user, date), and keeps the total equal to the channels. |
| SalesController.UpsertReportStores | app/controllers/sales_controller.py:47-63 | Afterwards exactly one report of (user, date) exists, holding the new sums. An existing one keeps its id. |
| SalesController.UpsertReportKeepsOthers | app/controllers/sales_controller.py:47-63 | Other reports are untouched, and at most one row is added. |
| SalesController.UpsertReportOverwrites | app/controllers/sales_controller.py:47-63 | A second upload on the same day overwrites the first: the result is as if only the second had happened. |
| Notification.SendDailyReport | app/services/notification.py:39-105 | The record of (user, report date) is created or updated with the attempt's outcome, one log line is added, and the other tables are untouched. |
| Notification.UpsertNotificationValid | app/services/notification.py:55-67 | The notification table keeps its ids, its one record per key and a status on every row. |
| Notification.UpsertNotificationRecord | app/services/notification.py:55-103 | Exactly one record of the key remains, stamped with the attempt's time. A new record is RECEIVED on ALIMTALK; an existing one keeps both. The status is SENT exactly when the reply is a JSON object; otherwise it is FAIL with the error text. The body is kept whenever the reply was JSON. |
| Notification.UpsertNotificationKeepsOthers | app/services/notification.py:55-67 | Records of other keys are untouched, and at most one row is added. |
| Notification.UpsertNotificationTwice | app/services/notification.py:55-105 | Sending the same report twice with the same outcome leaves the table as one send does. |
| Notification.ReportLogMatchesRecord | app/services/notification.py:91-102 | The log line says SUCCESS exactly when the record says SENT. |
| Notification.SendZombieAlert | app/services/notification.py:111-161 | The alert counts as sent exactly when the user has a phone, the provider answered 200, and the body is a JSON object. Only log lines are added. |
| Notification.NoPhoneNoSend | app/services/notification.py:118-123 | Without a phone number, the outcome and the log do not depend on the provider. |
| Notification.AlertLogMatchesOutcome | app/services/notification.py:118-161 | One or two ZOMBIE_SMS lines are added, and the last is SUCCESS exactly when the alert counts as sent. A SUCCESS line is written exactly when the answer was 200 with JSON. |
| Notification.SendGenericSms | app/services/notification.py:167-188 | A plain SMS reports success exactly on a 200 answer, whatever the body, and failure when posting raised. The phone number is not checked. |
| Notification.AlertAgreesWithGenericSms | app/services/notification.py:167-188 | Against a plain SMS: the alert succeeds exactly when a plain SMS to the same phone would, the phone is set, and the body is an object. An exception sends neither. |
| Monitoring.LogEvent | app/services/monitoring.py:12-26 | Exactly one SUCCESS line from SERVER is appended, and nothing else changes. |
| Monitoring.Zombies | app/services/monitoring.py:45-54 | The sweep selects exactly the users with a heartbeat older than 60 minutes and no mark, each once, in table order. |
| Monitoring.CheckZombies | app/services/monitoring.py:38-88 | The users become `Swept` of the old users, and the log grows by each selected user's alert lines in order. Other tables are untouched and the database stays valid. |
| Monitoring.SweepAll | app/services/monitoring.py:59-79 | After the loop over the selected positions, exactly the delivered ones are marked, and each one's lines are logged in turn. |
| Monitoring.AlertZombie | app/services/monitoring.py:59-76 | One alert marks the user only on delivery, and logs the sender's lines plus, on delivery, the "detected" line. |
| Monitoring.SweepEffect | app/services/monitoring.py:51-76 | A selected user whose alert was delivered gets the mark. Every other user, and every heartbeat, stays as it was. |
| Monitoring.DeliveredIsNotReselected | app/services/monitoring.py:50-66 | After a delivered alert, the user is not selected again at any later time. |
| Monitoring.FailedIsRetried | app/services/monitoring.py:77-79 | After a failed alert, the user is unchanged and selected again at any later sweep. |
| Monitoring.SweepTwice | app/services/monitoring.py:38-88 | A second sweep at the same moment, with the same answers, leaves the user table as the first left it. It selects exactly the users whose first alert failed, so they are alerted and logged again. |
| Monitoring.SweepLogsSplit | app/services/monitoring.py:59-76 | The sweep's log is the concatenation of each alert's lines. |
| Monitoring.AlertLogsShape | app/services/monitoring.py:62-79 | A delivered alert adds exactly the sender's SUCCESS line and the WARN "detected" line. An undelivered one adds only the sender's lines, the last of them FAIL. |
| Monitoring.SweptKeepsUsersValid | app/services/monitoring.py:59-82 | The sweep keeps ids and usernames. |
| Monitoring.DailyReset | app/services/monitoring.py:91-108 | Every mark is cleared, and nothing else changes. |
| Monitoring.ResetEffect | app/services/monitoring.py:101 | After the reset no user is marked, and every other field is as before. |
| Monitoring.ResetIdempotent | app/services/monitoring.py:101 | Resetting twice is resetting once. |
| Monitoring.ResetReArms | app/services/monitoring.py:45-54 | After the reset, the sweep selects exactly the users whose heartbeat is older than 60 minutes. |
| Monitoring.BeatThenStale | app/controllers/auth_controller.py:67-85 | Right after a ping a user is not selected. A user who pinged at t is selected exactly once more than 60 minutes have passed. |
| Monitoring.NeverPingedNeverAlerted | app/services/monitoring.py:51-54 | A user who never pinged is never selected or changed. |
| AuthController.RegisterUser | app/controllers/auth_controller.py:13-35 | A taken username gives 409 and nothing changes. Otherwise exactly one OWNER row with the next id and the given fields is added, and the table stays valid. |
| AuthController.RegisterKeepsUsersValid | app/controllers/auth_controller.py:13-35 | Registration keeps ids in step and usernames unique. |
| AuthController.RegisteredUserIsOwner | app/controllers/auth_controller.py:24-30 | The new row is the only one with that username. It is an owner with the given phone and store name, and no heartbeat. |
| AuthController.LoginUser | app/controllers/auth_controller.py:38-64 | Every failure is the same 401. A token names the signed-in username and the id of a user with that name whose hash the password checks against; it is a bearer token and lasts one week. |
| AuthController.LoginSpec | app/controllers/auth_controller.py:38-64 | Sign-in succeeds exactly when some user has the username and the password checks against that user's hash. Every failure is the same 401. A token names that user, is a bearer token and lasts one week. |
| AuthController.RegisteredCanLogIn | app/controllers/auth_controller.py:13-64 | A user who just registered can sign in with the same password. |
| AuthController.ProcessHeartbeat | app/controllers/auth_controller.py:67-85 | Only the caller's row changes: the heartbeat is stamped with now and the mark is cleared. The reply is "alive". |
| AuthController.BeatTouchesOnlyLiveness | app/controllers/auth_controller.py:69-73 | A ping changes only the two liveness fields, and always clears the mark. |
| UserController.UpdateProfile | app/controllers/user_controller.py:15-34 | Only the caller's row changes, to the update applied. The session is saved exactly when some field was given. |
| UserController.ProfileWhitelist | app/controllers/user_controller.py:19-27 | Only the phone and the store name can change. A field changes only when given, and then takes the given value. |
| UserController.ProfileIdempotent | app/controllers/user_controller.py:19-27 | Applying an update twice is applying it once, and an empty update changes nothing. |
| UserController.ProfileKeepsUsersValid | app/controllers/user_controller.py:15-34 | Ids and usernames are untouched, so the table stays valid. |
| SalesRouter.GetMonthlySales | app/routers/sales.py:31-74 | A bad month token gives its error. Otherwise the answer lists one summary per report of the caller in the month, in date order, with their running total. |
| SalesRouter.Accumulate | app/routers/sales.py:54-68 | The loop's total is the sum of the stored totals, and its list is one summary per report, in order. |
| SalesRouter.MonthRangeSpec | app/routers/sales.py:36-46 | A malformed token is a 400, and December 9999 is a 500. Otherwise the range runs from day 1 to the month's last day, and a date lies in it exactly when it has that year and month. |
| SalesRouter.MonthTokenRange | app/routers/sales.py:37-46 | A "%04d-%02d" token gives exactly its month. |
| SalesRouter.ReportsBetweenSpec | app/routers/sales.py:48-52 | The query returns exactly the caller's reports in the range, each as often as stored, in ascending date order. |
| SalesRouter.TotalOfChannels | app/routers/sales.py:57-58 | Summing the stored totals equals summing the four channels, when every total matches its channels. |
| SalesRouter.MonthlyTotalIsChannelSum | app/routers/sales.py:48-58 | On a valid table, the monthly running total is the channel sum of the listed days. |
| SalesRouter.ExportSalesExcel | app/routers/sales.py:79-119 | A range ending after today is refused, then a range starting after its end. Otherwise the sheet "매출내역" has the header and one row per report in the range, in date order, and the file is named after the range. |
| SalesRouter.SheetRows | app/routers/sales.py:100-106 | The rows are the header, then one row per report, in order. |
| SalesRouter.ExportAgreesWithMonthly | app/routers/sales.py:57-68 | For the same query result, an exported row and the monthly entry show the same date, total and channels. |
| SystemRouter.HistorySpec | app/routers/system.py:38-40 | The history holds the `days` newest of the caller's records, or all of them when there are fewer or `days` is negative, each as often as stored and newest date first. Only the caller's records appear, and every record left out is no newer than any listed. |
| SystemRouter.GetReportHistory | app/routers/system.py:32-49 | One item per listed record, in order, showing its date, upload status, primary status, and last update as `sent_at`. |
| SystemRouter.DetailSpec | app/routers/system.py:53-74 | A 404 exactly when the caller has no record of that date; otherwise that record's statuses, body and error. |
| SystemRouter.ReleasesNewestFirst | app/routers/system.py:81-82 | Every release is listed once, with ids descending, and the latest published comes first. |
| SystemRouter.CreateRelease | app/routers/system.py:86-107 | A non-administrator gets 403 and a known version gets 400, both with nothing changed. Otherwise exactly one release with the given fields and the next id is added, and the table stays valid. |
| SystemRouter.NewReleaseKeepsValid | app/routers/system.py:93-107 | Publishing keeps versions unique and ids in step. |
| SystemRouter.PublishedReleaseIsListedFirst | app/routers/system.py:86-107 | A release just published heads the listing and is found by its version. |
| Models.Db.constructor | app/models/models.py:7-75 | An empty database satisfies every table constraint. |
| Dates.Yesterday | app/services/parser.py:65-67 | The day before today, when there is one: a valid date whose next day is today. |
| Dates.PrevNextRoundTrip | app/routers/sales.py:44-46 | Stepping one day back and forward, or forward and back, returns the same date. |
| Dates.PrevDayImmediate | app/routers/sales.py:44-46 | No date lies strictly between a date and the day before it. |
| Dates.ParseDateText | app/services/parser.py:61-62 | The "%Y-%m-%d" text of a date reads back as that date. |
| Dates.ParseYearMonthText | app/routers/sales.py:37 | A "%Y-%m" token reads back as its year and month. |
| Strings.ThousandsRoundTrip | app/services/notification.py:46-50 | An amount formatted with thousands separators reads back as itself once the commas are removed. |
| Strings.IntToStringRoundTrip | app/services/parser.py:123 | `str(n)` reads back as n. |
| Strings.StripEmpty | app/services/parser.py:113 | A text strips to nothing exactly when it is all white space. |
| Sorting.SortBy | app/routers/sales.py:52 | `order_by` returns a sorted permutation of its input. |
| Sorting.TakeKeepsSmallest | app/routers/system.py:38-40 | `limit` after `order_by` keeps the smallest keys: nothing left out sorts before anything kept. |
| Sorting.First | app/controllers/sales_controller.py:47-50 | `first()` returns the earliest match, and none exactly when there is no match. |

## Left out

- Decryption of the workbook, sheet selection and the reading of cells are
  not modelled. The workbook arrives as the sheet pandas would build, as a
  reader error (a 400), or as a failure that escapes the parser.
- Number cells hold integers, and amount texts are read with an integer
  parse. `int(float(...))` on texts with a fraction or an exponent is not
  modelled, because floating point is not.
- Parser.ParseSalesFile: a failure inside the date check other than a
  refusal is treated as "no date found", as the source does. Reading a date
  from the first column of a frame narrower than one column is not
  distinguished.
- Parser.ParseAmount: a text amount is read as optionally signed ASCII
  digits. Python's `float()` also reads `_` between digits ("1_000") and
  non-ASCII decimal digits ("１２０００"); the source adds such amounts,
  while the model counts them as unreadable and adds nothing.
- Parser.CellDate: a date text is read with ASCII digits only. The `\d`
  of `strptime` also matches non-ASCII decimal digits; on such a text the
  source applies the date check, while the model finds no date and skips it.
- Lower-casing (`str.lower()`) is modelled for ASCII letters only.
- Password hashing and checking (bcrypt), and the signing of the access
  token (JWT), are not modelled. The hash is a parameter, the check an
  arbitrary predicate, and the token its claims.
- AuthController.ProcessHeartbeat returns the stamp itself rather than the
  text `str(datetime)`.
- The `created_at`/`timestamp` server defaults, `store_uuid`, and the
  `provider_message_id` attribute are not modelled. The last is not a
  column of the table.
- The HMAC headers, the request bodies sent to the messaging provider, and
  the message id printed on success are not modelled.
- The scheduler that runs the sweep and the reset, concurrent requests,
  database exceptions and rollbacks are not modelled. Session commits are
  taken to succeed.
- `get_me`, `SalesController._log` and the routes that only delegate to a
  controller are not modelled.
- SystemRouter.GetReportHistory: a negative `days` means no limit, as
  SQLite reads a negative LIMIT.
- SalesRouter.MonthRange: December 9999 has no next January. The source's
  uncaught ValueError is modelled as the framework's 500.
- The clock's microsecond stamp and its date are independent parameters;
  the model does not tie one to the other.
