/** `ExcelParser.parse_sales_file`: reads the point-of-sale export of one
    business day and sums its amounts into four channels (hall, Baemin,
    Coupang Eats, Yogiyo).

    The workbook is given as the sheet the reader would produce (or as the
    reason it could not be read); decryption and sheet selection happen
    before this point and are not part of this model. */
module Parser {
  import opened Wrappers
  import opened Strings
  import opened Dates
  import opened Sums

  // ------------------------------------------------------------------ input

  /** One spreadsheet cell as pandas delivers it: NaN, text, a number or a date. */
  datatype Cell = Blank | Str(text: string) | Num(value: int) | DateValue(date: Date)

  /** Rows of cells; rows may be ragged. */
  type Grid = seq<seq<Cell>>

  /** What reading the upload yields: the sheet, a reader error (reported to
      the client as 400), or a failure that escapes the parser altogether. */
  datatype Content = Sheet(grid: Grid) | Unreadable(reason: string) | ReadFailed(reason: string)

  datatype Upload = Upload(filename: Option<string>, content: Content)

  // ----------------------------------------------------------------- output

  /** The parser returns the four sums, raises an HTTP error, or lets a
      foreign exception escape. */
  datatype Outcome = Parsed(sales: Buckets) | Rejected(error: HttpError) | Crashed(reason: string)

  // -------------------------------------------------------------- constants

  const ReportFileMarker := "매출리포트"
  const TossFileMarker := "토스POS다운로드"
  const PaymentGroup := "결제수단별"
  const AcquirerGroup := "매입사별"
  const HallMethods: seq<string> := ["현금", "카드", "QR결제", "계좌이체"]
  const BaeminKeys: seq<string> := ["plugin_baemin", "baemin", "배민", "배달의 민족"]
  const CoupangKeys: seq<string> := ["plugin_coupang", "coupang", "쿠팡이츠", "쿠팡", "coupang eats"]
  const YogiyoKeys: seq<string> := ["yogiyo", "plugin_yogiyo", "요기요"]

  const UnsupportedFilename := HttpError(400, "지원하지 않는 파일명입니다. '매출리포트' 또는 '토스POS다운로드'가 포함된 파일만 처리 가능합니다.")

  // --------------------------------------------------------------- filename

  /** `file.filename or ""` */
  function FilenameOf(upload: Upload): string {
    match upload.filename
    case None => ""
    case Some(name) => name
  }

  predicate FilenameAccepted(name: string) {
    Contains(name, ReportFileMarker) || Contains(name, TossFileMarker)
  }

  // ------------------------------------------------------------------ frame

  /** The number of columns of the frame: the length of the longest row. */
  function Width(g: Grid): (w: nat)
    ensures forall r :: 0 <= r < |g| ==> |g[r]| <= w
    ensures g != [] ==> exists r :: 0 <= r < |g| && |g[r]| == w
  {
    if g == [] then 0
    else
      var rest := Width(g[1..]);
      assert forall r :: 1 <= r < |g| ==> g[r] == g[1..][r - 1];
      if |g[0]| > rest then |g[0]| else rest
  }

  function PadRow(row: seq<Cell>, w: nat): (r: seq<Cell>)
    requires |row| <= w
    ensures |r| == w && r[..|row|] == row
    ensures forall c :: |row| <= c < w ==> r[c] == Blank
  {
    row + seq(w - |row|, _ => Blank)
  }

  predicate Rectangular(f: Grid, w: nat) {
    forall r :: 0 <= r < |f| ==> |f[r]| == w
  }

  /** The frame `read_excel(..., header=None)` builds: the same rows, each
      padded with NaN to the width of the widest. */
  function ToFrame(g: Grid): (f: Grid)
    ensures |f| == |g| && Rectangular(f, Width(g))
    ensures forall r :: 0 <= r < |g| ==> f[r] == PadRow(g[r], Width(g))
  {
    seq(|g|, r requires 0 <= r < |g| => PadRow(g[r], Width(g)))
  }

  // ------------------------------------------------------------- cell text

  /** `str(val)`; a date cell reads as a midnight timestamp. */
  function CellText(c: Cell): string {
    match c
    case Blank => "nan"
    case Str(s) => s
    case Num(n) => IntToString(n)
    case DateValue(d) => DateText(d) + " 00:00:00"
  }

  /** `[str(v) for v in row if pd.notna(v)]` */
  function FilledTexts(row: seq<Cell>): seq<string> {
    if row == [] then []
    else (if row[0] == Blank then [] else [CellText(row[0])]) + FilledTexts(row[1..])
  }

  /** The header row is the one whose filled cells, joined by spaces, mention the payment group. */
  predicate IsHeaderRow(row: seq<Cell>) {
    Contains(Join(" ", FilledTexts(row)), PaymentGroup)
  }

  /** The skip test for data rows as the parser states it: the filled cells'
      texts, concatenated, strip to nothing. */
  predicate JoinedBlank(row: seq<Cell>) {
    Strip(Join("", FilledTexts(row))) == ""
  }

  /** A blank data row: every filled cell's text is white space only. */
  predicate IsBlankRow(row: seq<Cell>) {
    forall c :: 0 <= c < |row| && row[c] != Blank ==> AllSpace(CellText(row[c]))
  }

  // ------------------------------------------------------------- header row

  /** The first header row at or after `lo`. */
  function FirstHeaderRow(f: Grid, lo: nat): (h: Option<nat>)
    requires lo <= |f|
    ensures h.Some? ==> lo <= h.value < |f| && IsHeaderRow(f[h.value])
    ensures h.Some? ==> forall k :: lo <= k < h.value ==> !IsHeaderRow(f[k])
    ensures h.None? ==> forall k :: lo <= k < |f| ==> !IsHeaderRow(f[k])
    decreases |f| - lo
  {
    if lo == |f| then None
    else if IsHeaderRow(f[lo]) then Some(lo)
    else FirstHeaderRow(f, lo + 1)
  }

  /** The scan for the header row, stopping at the first match. */
  method FindHeaderRow(f: Grid) returns (h: Option<nat>)
    ensures h == FirstHeaderRow(f, 0)
  {
    h := None;
    var r := 0;
    while r < |f|
      invariant 0 <= r <= |f|
      invariant FirstHeaderRow(f, r) == FirstHeaderRow(f, 0)
    {
      if IsHeaderRow(f[r]) {
        h := Some(r);
        return;
      }
      r := r + 1;
    }
  }

  // -------------------------------------------------------------- date gate

  /** The date a cell holds: a date cell as it is, a text cell stripped, its
      dots turned into dashes and read with "%Y-%m-%d"; anything else none. */
  function CellDate(c: Cell): (d: Option<Date>)
    ensures d.Some? ==> ValidDate(d.value) || c.DateValue?
  {
    match c
    case DateValue(d) => Some(d)
    case Str(s) => ParseIsoDate(ReplaceChar(Strip(s), '.', '-'))
    case _ => None
  }

  /** The business date of the sheet: the first cell of the first data row,
      two rows below the header, when that row exists and holds a date. */
  function SheetDate(f: Grid, header: nat): Option<Date> {
    if header + 2 < |f| && |f[header + 2]| > 0 then CellDate(f[header + 2][0]) else None
  }

  /** Accepted dates: none found (the check is skipped), today, or yesterday
      before noon. The check is skipped as well when the day before today
      cannot be represented. */
  predicate DateAccepted(date: Option<Date>, clock: Clock)
    requires ValidDate(clock.today)
  {
    date.None? || clock.today == FirstDate || date.value == clock.today
    || (date.value == PrevDay(clock.today) && clock.hour < 12)
  }

  function DateGate(f: Grid, header: nat, clock: Clock): (e: Option<HttpError>)
    requires ValidDate(clock.today)
    ensures e.None? <==> DateAccepted(SheetDate(f, header), clock)
    ensures e.Some? ==> e.value.status == 400
  {
    match SheetDate(f, header)
    case None => None
    case Some(d) =>
      match Yesterday(clock.today)
      case None => None
      case Some(y) =>
        if d == clock.today then None
        else if d == y then
          if clock.hour < 12 then None
          else Some(HttpError(400, "어제(" + DateText(d) + ") 매출은 오늘 낮 12시까지만 보고 가능합니다."))
        else Some(HttpError(400, "보고 가능한 날짜가 아닙니다. (엑셀 날짜: " + DateText(d) + ")"))
  }

  // --------------------------------------------------------- column mapping

  datatype Column = Column(parent: string, name: string)

  /** The group label in force at column `c`: the nearest filled top-row cell
      at or left of `c`, stripped; "" when there is none. */
  function GroupAt(top: seq<Cell>, c: int): string
    requires c < |top|
    decreases c
  {
    if c < 0 then ""
    else if top[c] != Blank then Strip(CellText(top[c]))
    else GroupAt(top, c - 1)
  }

  function ChildName(cell: Cell): string {
    if cell == Blank then "" else Strip(CellText(cell))
  }

  function ColumnsOf(top: seq<Cell>, sub: seq<Cell>): (cols: seq<Column>)
    requires |top| == |sub|
    ensures |cols| == |top|
  {
    seq(|top|, c requires 0 <= c < |top| => Column(GroupAt(top, c), ChildName(sub[c])))
  }

  /** The left-to-right pass that carries the current group label forward. */
  method BuildColumns(top: seq<Cell>, sub: seq<Cell>) returns (cols: seq<Column>)
    requires |top| == |sub|
    ensures cols == ColumnsOf(top, sub)
  {
    cols := [];
    var parent := "";
    for c := 0 to |top|
      invariant |cols| == c
      invariant parent == GroupAt(top, c - 1)
      invariant forall k :: 0 <= k < c ==> cols[k] == Column(GroupAt(top, k), ChildName(sub[k]))
    {
      if top[c] != Blank {
        parent := Strip(CellText(top[c]));
      }
      var name := if sub[c] != Blank then Strip(CellText(sub[c])) else "";
      assert parent == GroupAt(top, c) && name == ChildName(sub[c]);
      cols := cols + [Column(parent, name)];
    }
  }

  /** A column belongs to the last group label written at or left of it. */
  lemma {:induction false} GroupAtNearestLabel(top: seq<Cell>, k: nat, c: int)
    requires k <= c < |top| && top[k] != Blank
    requires forall j :: k < j <= c ==> top[j] == Blank
    ensures GroupAt(top, c) == Strip(CellText(top[k]))
    decreases c
  {
    if c > k {
      GroupAtNearestLabel(top, k, c - 1);
    }
  }

  /** Columns left of the first group label belong to no group. */
  lemma {:induction false} GroupAtBeforeAnyLabel(top: seq<Cell>, c: int)
    requires c < |top|
    requires forall j :: 0 <= j <= c ==> top[j] == Blank
    ensures GroupAt(top, c) == ""
    decreases c
  {
    if c >= 0 {
      GroupAtBeforeAnyLabel(top, c - 1);
    }
  }

  // ---------------------------------------------------------- classification

  /** The channel a column's amounts count towards, if any. Matching is by
      exact name under the payment group and by keyword in the lower-cased
      name under the acquirer group, Baemin before Coupang before Yogiyo. */
  function Classify(col: Column): Option<Channel> {
    if col.parent == PaymentGroup then
      if col.name in HallMethods then Some(Hall) else None
    else if col.parent == AcquirerGroup then
      var low := Lower(col.name);
      if ContainsAny(low, BaeminKeys) then Some(Baemin)
      else if ContainsAny(low, CoupangKeys) then Some(Coupang)
      else if ContainsAny(low, YogiyoKeys) then Some(Yogiyo)
      else None
    else None
  }

  /** Each channel, and when a column lands in it: hall takes the four
      payment methods by exact name; the acquirer columns go to the first
      channel one of whose keywords occurs in the lower-cased name. */
  lemma ClassifyCases(col: Column)
    ensures Classify(col) == Some(Hall) <==> col.parent == PaymentGroup && col.name in HallMethods
    ensures Classify(col) == Some(Baemin) <==>
      col.parent == AcquirerGroup && ContainsAny(Lower(col.name), BaeminKeys)
    ensures Classify(col) == Some(Coupang) <==>
      col.parent == AcquirerGroup && !ContainsAny(Lower(col.name), BaeminKeys)
      && ContainsAny(Lower(col.name), CoupangKeys)
    ensures Classify(col) == Some(Yogiyo) <==>
      col.parent == AcquirerGroup && !ContainsAny(Lower(col.name), BaeminKeys)
      && !ContainsAny(Lower(col.name), CoupangKeys) && ContainsAny(Lower(col.name), YogiyoKeys)
    ensures Classify(col).Some? ==> col.parent in {PaymentGroup, AcquirerGroup}
  {
    assert PaymentGroup[0] != AcquirerGroup[0];
  }

  // ---------------------------------------------------------------- amounts

  /** The amount a cell text denotes once its commas and "원" are removed and
      it is stripped; none when the integer parse fails. */
  function ParseAmount(text: string): Option<int> {
    ParseInt(Strip(RemoveChar(RemoveChar(text, ','), '원')))
  }

  function CellAmount(c: Cell): Option<int> {
    if c == Blank then None else ParseAmount(CellText(c))
  }

  /** What one cell adds to the sums: its amount, to its column's channel,
      when it has a non-zero amount and the column has a channel. */
  function CellShare(cell: Cell, col: Column): Buckets {
    match CellAmount(cell)
    case None => NoSales
    case Some(a) =>
      if a == 0 then NoSales
      else match Classify(col)
        case None => NoSales
        case Some(k) => Credit(k, a)
  }

  /** What each cell of a row adds, under its own column. */
  function CellShares(row: seq<Cell>, cols: seq<Column>): (s: seq<Buckets>)
    requires |row| == |cols|
    ensures |s| == |row|
  {
    seq(|row|, c requires 0 <= c < |row| => CellShare(row[c], cols[c]))
  }

  /** What one data row adds: nothing for a blank row, its cells' shares otherwise. */
  function RowTotal(row: seq<Cell>, cols: seq<Column>): Buckets
    requires |row| == |cols|
  {
    if IsBlankRow(row) then NoSales else Sum(CellShares(row, cols))
  }

  function RowTotals(rows: Grid, cols: seq<Column>): (s: seq<Buckets>)
    requires Rectangular(rows, |cols|)
    ensures |s| == |rows|
  {
    seq(|rows|, r requires 0 <= r < |rows| => RowTotal(rows[r], cols))
  }

  /** What a run of data rows adds. */
  function RowsTotal(rows: Grid, cols: seq<Column>): Buckets
    requires Rectangular(rows, |cols|)
  {
    Sum(RowTotals(rows, cols))
  }

  /** The branch of the summing pass that books a non-zero `amount` to the
      channel of its column, if the column has one. */
  method Book(col: Column, amount: int, hall: int, baemin: int, coupang: int, yogiyo: int)
    returns (hall': int, baemin': int, coupang': int, yogiyo': int)
    ensures Buckets(hall', baemin', coupang', yogiyo') == Plus(Buckets(hall, baemin, coupang, yogiyo),
      if Classify(col).None? then NoSales else Credit(Classify(col).value, amount))
  {
    hall', baemin', coupang', yogiyo' := hall, baemin, coupang, yogiyo;
    if col.parent == PaymentGroup {
      if col.name in HallMethods {
        hall' := hall + amount;
      }
    } else if col.parent == AcquirerGroup {
      var low := Lower(col.name);
      if ContainsAny(low, BaeminKeys) {
        baemin' := baemin + amount;
      } else if ContainsAny(low, CoupangKeys) {
        coupang' := coupang + amount;
      } else if ContainsAny(low, YogiyoKeys) {
        yogiyo' := yogiyo + amount;
      }
    }
  }

  /** One cell of the summing pass: a filled cell whose text reads as a
      non-zero amount adds it to the running total of its column's channel. */
  method TallyCell(val: Cell, col: Column, hall: int, baemin: int, coupang: int, yogiyo: int)
    returns (hall': int, baemin': int, coupang': int, yogiyo': int)
    ensures Buckets(hall', baemin', coupang', yogiyo') == Plus(Buckets(hall, baemin, coupang, yogiyo), CellShare(val, col))
  {
    hall', baemin', coupang', yogiyo' := hall, baemin, coupang, yogiyo;
    if val == Blank {
      return;
    }
    var parsed := ParseAmount(CellText(val));
    if parsed.None? {
      return;
    }
    var amount := parsed.value;
    if amount == 0 {
      return;
    }
    assert CellAmount(val) == Some(amount);
    assert CellShare(val, col) == if Classify(col).None? then NoSales else Credit(Classify(col).value, amount);
    hall', baemin', coupang', yogiyo' := Book(col, amount, hall, baemin, coupang, yogiyo);
  }

  /** The cells of one data row, left to right. */
  method TallyRow(row: seq<Cell>, cols: seq<Column>, hall: int, baemin: int, coupang: int, yogiyo: int)
    returns (hall': int, baemin': int, coupang': int, yogiyo': int)
    requires |row| == |cols|
    ensures Buckets(hall', baemin', coupang', yogiyo') == Plus(Buckets(hall, baemin, coupang, yogiyo), Sum(CellShares(row, cols)))
  {
    ghost var before := Buckets(hall, baemin, coupang, yogiyo);
    ghost var shares := CellShares(row, cols);
    hall', baemin', coupang', yogiyo' := hall, baemin, coupang, yogiyo;
    for c := 0 to |row|
      invariant Buckets(hall', baemin', coupang', yogiyo') == Plus(before, Sum(shares[..c]))
    {
      SumPrefixStep(shares, c);
      PlusAssoc(before, Sum(shares[..c]), shares[c]);
      hall', baemin', coupang', yogiyo' := TallyCell(row[c], cols[c], hall', baemin', coupang', yogiyo');
    }
    SumWhole(shares);
  }

  /** The summing pass over the data rows, with one running total per channel. */
  method Aggregate(f: Grid, cols: seq<Column>, start: nat) returns (sales: Buckets)
    requires start <= |f| && Rectangular(f, |cols|)
    ensures sales == RowsTotal(f[start..], cols)
  {
    ghost var totals := RowTotals(f, cols);
    var hall, baemin, coupang, yogiyo := 0, 0, 0, 0;
    for i := start to |f|
      invariant Buckets(hall, baemin, coupang, yogiyo) == Sum(totals[start..i])
    {
      SumRangeStep(totals, start, i);
      var row := f[i];
      RowTotalCases(row, cols);
      if JoinedBlank(row) {
        PlusNoSales(Sum(totals[start..i]));
        continue;
      }
      hall, baemin, coupang, yogiyo := TallyRow(row, cols, hall, baemin, coupang, yogiyo);
    }
    RowTotalsSuffix(f, cols, start);
    sales := Buckets(hall, baemin, coupang, yogiyo);
  }

  /** A row the parser skips adds nothing; any other adds its cells' shares. */
  lemma RowTotalCases(row: seq<Cell>, cols: seq<Column>)
    requires |row| == |cols|
    ensures JoinedBlank(row) ==> RowTotal(row, cols) == NoSales
    ensures !JoinedBlank(row) ==> RowTotal(row, cols) == Sum(CellShares(row, cols))
  {
    BlankRowTest(row);
  }

  lemma RowTotalsSuffix(f: Grid, cols: seq<Column>, start: nat)
    requires start <= |f| && Rectangular(f, |cols|)
    ensures Rectangular(f[start..], |cols|)
    ensures RowTotals(f, cols)[start..|f|] == RowTotals(f[start..], cols)
  {
  }


  // ----------------------------------------------------------------- parse

  /** The whole parse as one function of the upload and the clock. */
  function Parse(upload: Upload, clock: Clock): Outcome
    requires ValidDate(clock.today)
  {
    if !FilenameAccepted(FilenameOf(upload)) then Rejected(UnsupportedFilename)
    else match upload.content
      case ReadFailed(reason) => Crashed(reason)
      case Unreadable(reason) => Rejected(HttpError(400, "Excel parsing error: " + reason))
      case Sheet(g) =>
        var f := ToFrame(g);
        match FirstHeaderRow(f, 0)
        case None => Parsed(NoSales)
        case Some(h) =>
          if h + 1 >= |f| then Parsed(NoSales)
          else match DateGate(f, h, clock)
            case Some(e) => Rejected(e)
            case None => Parsed(RowsTotal(f[h + 2..], ColumnsOf(f[h], f[h + 1])))
  }

  /** `parse_sales_file`. The file name is checked before the content is
      looked at; a sheet without a header row (or whose header is its last
      row) yields zero sums; a sheet dated neither today nor, before noon,
      yesterday is refused with 400. */
  method ParseSalesFile(upload: Upload, clock: Clock) returns (r: Outcome)
    requires ValidDate(clock.today)
    ensures r == Parse(upload, clock)
    ensures !FilenameAccepted(FilenameOf(upload)) ==> r == Rejected(UnsupportedFilename)
    ensures r.Parsed? ==> FilenameAccepted(FilenameOf(upload)) && upload.content.Sheet?
    ensures r.Crashed? <==> FilenameAccepted(FilenameOf(upload)) && upload.content.ReadFailed?
    ensures upload.content.Sheet? && FilenameAccepted(FilenameOf(upload)) ==>
      (r.Rejected? <==>
        exists h :: FirstHeaderRow(ToFrame(upload.content.grid), 0) == Some(h)
          && h + 1 < |ToFrame(upload.content.grid)|
          && !DateAccepted(SheetDate(ToFrame(upload.content.grid), h), clock))
  {
    var name := FilenameOf(upload);
    if !(Contains(name, ReportFileMarker) || Contains(name, TossFileMarker)) {
      return Rejected(UnsupportedFilename);
    }
    match upload.content {
      case ReadFailed(reason) =>
        return Crashed(reason);
      case Unreadable(reason) =>
        return Rejected(HttpError(400, "Excel parsing error: " + reason));
      case Sheet(g) =>
        var f := ToFrame(g);
        var top := FindHeaderRow(f);
        if top.None? || top.value + 1 >= |f| {
          return Parsed(NoSales);
        }
        var h := top.value;
        var refusal := DateGate(f, h, clock);
        if refusal.Some? {
          return Rejected(refusal.value);
        }
        var cols := BuildColumns(f[h], f[h + 1]);
        var sales := Aggregate(f, cols, h + 2);
        return Parsed(sales);
    }
  }

  // ---------------------------------------------------------------- lemmas

  lemma {:induction false} FilledTextsHasCell(row: seq<Cell>, c: nat)
    requires c < |row| && row[c] != Blank
    ensures CellText(row[c]) in FilledTexts(row)
    decreases c
  {
    if c > 0 {
      FilledTextsHasCell(row[1..], c - 1);
    }
  }

  lemma {:induction false} FilledTextsFromCell(row: seq<Cell>, x: string)
    requires x in FilledTexts(row)
    ensures exists c :: 0 <= c < |row| && row[c] != Blank && x == CellText(row[c])
    decreases |row|
  {
    if row[0] == Blank || x != CellText(row[0]) {
      FilledTextsFromCell(row[1..], x);
      var c :| 0 <= c < |row[1..]| && row[1..][c] != Blank && x == CellText(row[1..][c]);
      assert row[c + 1] == row[1..][c];
    }
  }

  /** A concatenation is white space only exactly when each part is. */
  lemma {:induction false} JoinAllSpace(parts: seq<string>)
    ensures AllSpace(Join("", parts)) <==> forall x :: x in parts ==> AllSpace(x)
    decreases |parts|
  {
    if |parts| > 1 {
      var j := Join("", parts[1..]);
      var whole := Join("", parts);
      assert whole == parts[0] + j;
      JoinAllSpace(parts[1..]);
      assert AllSpace(whole) <==> AllSpace(parts[0]) && AllSpace(j) by {
        if AllSpace(whole) {
          forall i | 0 <= i < |j| ensures IsSpace(j[i]) {
            assert j[i] == whole[|parts[0]| + i];
          }
          forall i | 0 <= i < |parts[0]| ensures IsSpace(parts[0][i]) {
            assert parts[0][i] == whole[i];
          }
        }
      }
      assert forall x :: x in parts <==> x == parts[0] || x in parts[1..];
    }
  }

  /** The skip test as stated by the parser is the blank-row predicate. */
  lemma BlankRowTest(row: seq<Cell>)
    ensures JoinedBlank(row) <==> IsBlankRow(row)
  {
    var texts := FilledTexts(row);
    JoinAllSpace(texts);
    StripEmpty(Join("", texts));
    if IsBlankRow(row) {
      forall x | x in texts ensures AllSpace(x) {
        FilledTextsFromCell(row, x);
      }
    } else {
      var c :| 0 <= c < |row| && row[c] != Blank && !AllSpace(CellText(row[c]));
      FilledTextsHasCell(row, c);
    }
  }

  lemma AllSpaceHasNoAmount(t: string)
    requires AllSpace(t)
    ensures ParseAmount(t) == None
  {
    var u := RemoveChar(RemoveChar(t, ','), '원');
    assert AllSpace(u) by {
      forall i | 0 <= i < |u| ensures IsSpace(u[i]) {
        assert u[i] in u;
      }
    }
    StripEmpty(u);
  }

  lemma BlankCellHasNoShare(cell: Cell, col: Column)
    requires cell == Blank || AllSpace(CellText(cell))
    ensures CellShare(cell, col) == NoSales
  {
    if cell != Blank {
      AllSpaceHasNoAmount(CellText(cell));
    }
  }

  /** Skipping blank rows changes nothing: a row whose filled cells are only
      white space carries no amount in any cell. */
  lemma BlankRowSkipIsHarmless(row: seq<Cell>, cols: seq<Column>)
    requires |row| == |cols|
    ensures RowTotal(row, cols) == Sum(CellShares(row, cols))
  {
    if IsBlankRow(row) {
      var shares := CellShares(row, cols);
      forall c | 0 <= c < |row| ensures shares[c] == NoSales {
        BlankCellHasNoShare(row[c], cols[c]);
      }
      SumOfNothing(shares);
    }
  }

  lemma CellShareOutsideChannel(cell: Cell, col: Column, k: Channel)
    requires Classify(col) != Some(k)
    ensures Share(CellShare(cell, col), k) == 0
  {
  }

  lemma CellsOutsideChannel(row: seq<Cell>, cols: seq<Column>, k: Channel)
    requires |row| == |cols|
    requires forall c :: 0 <= c < |cols| ==> Classify(cols[c]) != Some(k)
    ensures Share(RowTotal(row, cols), k) == 0
  {
    var shares := CellShares(row, cols);
    forall c | 0 <= c < |row| ensures Share(shares[c], k) == 0 {
      CellShareOutsideChannel(row[c], cols[c], k);
    }
    SumShareZero(shares, k);
  }

  /** A channel that no column is classified into sums to zero. */
  lemma UnmappedChannelIsZero(rows: Grid, cols: seq<Column>, k: Channel)
    requires Rectangular(rows, |cols|)
    requires forall c :: 0 <= c < |cols| ==> Classify(cols[c]) != Some(k)
    ensures Share(RowsTotal(rows, cols), k) == 0
  {
    var totals := RowTotals(rows, cols);
    forall r | 0 <= r < |rows| ensures Share(totals[r], k) == 0 {
      CellsOutsideChannel(rows[r], cols, k);
    }
    SumShareZero(totals, k);
  }

  /** Two rows that differ at most in column `c`. */
  predicate SameOutside(a: seq<Cell>, b: seq<Cell>, c: nat) {
    |a| == |b| && forall j :: 0 <= j < |a| && j != c ==> a[j] == b[j]
  }

  lemma CellShareUnmapped(cell: Cell, col: Column)
    requires Classify(col).None?
    ensures CellShare(cell, col) == NoSales
  {
  }

  lemma SharesIgnoreColumn(a: seq<Cell>, b: seq<Cell>, cols: seq<Column>, c: nat)
    requires |a| == |cols| && SameOutside(a, b, c)
    requires c < |cols| && Classify(cols[c]).None?
    ensures CellShares(a, cols) == CellShares(b, cols)
  {
    CellShareUnmapped(a[c], cols[c]);
    CellShareUnmapped(b[c], cols[c]);
  }

  /** Whatever a column without a channel holds, in any row, the sums are the
      same: such columns are ignored, blank-row skipping included. */
  lemma UnmappedColumnIsIgnored(rows: Grid, rows': Grid, cols: seq<Column>, c: nat)
    requires Rectangular(rows, |cols|) && |rows'| == |rows|
    requires c < |cols| && Classify(cols[c]).None?
    requires forall r :: 0 <= r < |rows| ==> SameOutside(rows[r], rows'[r], c)
    ensures Rectangular(rows', |cols|)
    ensures RowsTotal(rows, cols) == RowsTotal(rows', cols)
  {
    assert Rectangular(rows', |cols|) by {
      forall r | 0 <= r < |rows'| ensures |rows'[r]| == |cols| {
        assert SameOutside(rows[r], rows'[r], c);
      }
    }
    forall r | 0 <= r < |rows| ensures RowTotal(rows[r], cols) == RowTotal(rows'[r], cols) {
      BlankRowSkipIsHarmless(rows[r], cols);
      BlankRowSkipIsHarmless(rows'[r], cols);
      SharesIgnoreColumn(rows[r], rows'[r], cols, c);
    }
    assert RowTotals(rows, cols) == RowTotals(rows', cols);
  }

  /** The sums are additive: two consecutive blocks of rows add up to the
      sums of the blocks. */
  lemma RowsTotalSplit(a: Grid, b: Grid, cols: seq<Column>)
    requires Rectangular(a, |cols|) && Rectangular(b, |cols|)
    ensures Rectangular(a + b, |cols|)
    ensures RowsTotal(a + b, cols) == Plus(RowsTotal(a, cols), RowsTotal(b, cols))
  {
    assert RowTotals(a + b, cols) == RowTotals(a, cols) + RowTotals(b, cols);
    SumAppend(RowTotals(a, cols), RowTotals(b, cols));
  }

  /** A text that parses as an integer keeps its value when "원" is appended:
      it has no commas, no "원" and no white space at either end. */
  lemma CleanNumberText(s: string)
    requires ParseInt(s).Some?
    ensures ParseAmount(s) == ParseInt(s)
    ensures ParseAmount(s + "원") == ParseInt(s)
  {
    var k := if s[0] == '-' || s[0] == '+' then 1 else 0;
    var d := s[k..];
    assert AllDigits(d) && |d| > 0;
    forall i | 0 <= i < |s|
      ensures s[i] != ',' && s[i] != '원' && !IsSpace(s[i])
    {
      if i >= k {
        assert s[i] == d[i - k] && IsDigit(d[i - k]);
      }
    }
    RemoveCharAbsent(s, ',');
    RemoveCharAbsent(s, '원');
    StripUnchanged(s);
    RemoveCharAppend(s, "원", ',');
    assert RemoveChar("원", ',') == "원";
    RemoveCharAppend(s, "원", '원');
    assert RemoveChar("원", '원') == "" && s + "" == s;
  }

  /** A number cell counts with its own value. */
  lemma NumberCellAmount(n: int)
    ensures CellAmount(Num(n)) == Some(n)
  {
    IntToStringRoundTrip(n);
    CleanNumberText(IntToString(n));
  }

  /** Round trip: an amount written with thousands separators and "원", as
      `f"{n:,}원"`, is read back as `n`. */
  lemma WonAmountRoundTrip(n: int)
    ensures ParseAmount(Thousands(n) + "원") == Some(n)
  {
    var t := Thousands(n);
    var d := RemoveChar(t, ',');
    ThousandsRoundTrip(n);
    CleanNumberText(d);
    RemoveCharAppend(t, "원", ',');
    assert RemoveChar("원", ',') == "원";
    RemoveCharAbsent(d, ',');
    RemoveCharAppend(d, "원", ',');
    assert RemoveChar(t + "원", ',') == RemoveChar(d + "원", ',');
  }
}
