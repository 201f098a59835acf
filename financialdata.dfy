/** The financial-data router: the spreadsheet template check, the period parameters and the
    dates derived from them, the Manager-only gates, the upload that stores one record per
    spreadsheet row, the filtered read of a period, and the soft delete.

    Spreadsheet values are reals (floating point is not modelled); reading the file, the
    database session, and the JWT that yields the current user are outside the model and
    appear as inputs. */
module FinancialData {
  import opened Wrappers

  /** The columns every uploaded sheet must have, in the order they are checked and stored. */
  const RequiredColumns: seq<string> := [
    "revenue", "cost_of_goods_sold", "gross_profit", "operating_expenses", "ebitda",
    "net_profit", "current_assets", "total_assets", "inventory", "cash",
    "accounts_receivable", "current_liabilities", "shareholders_equity"
  ]

  // ---------------------------------------------------------------- cells

  /** A spreadsheet cell as the reader hands it over: empty (NaN), a number, or text. */
  datatype Cell = Blank | Number(value: real) | Text(text: string)

  predicate IsDigit(c: char)
  {
    '0' <= c <= '9'
  }

  predicate AllDigits(s: string)
  {
    forall k :: 0 <= k < |s| ==> IsDigit(s[k])
  }

  function DigitsValue(s: string): (n: nat)
    requires AllDigits(s)
  {
    if s == [] then 0 else DigitsValue(s[..|s| - 1]) * 10 + (s[|s| - 1] as int - '0' as int)
  }

  function Pow10(n: nat): (p: nat)
    ensures p >= 1
  {
    if n == 0 then 1 else 10 * Pow10(n - 1)
  }

  function IndexOfDot(s: string): (k: nat)
    ensures k <= |s|
    ensures k < |s| ==> s[k] == '.'
  {
    if s == [] || s[0] == '.' then 0 else 1 + IndexOfDot(s[1..])
  }

  /** A plain decimal numeral, `[+-]?digits[.digits]` with at least one digit, read as a
      number; anything else is not numeric. */
  function ParseDecimal(s: string): Option<real>
  {
    var negative := |s| > 0 && s[0] == '-';
    var body := if |s| > 0 && (s[0] == '-' || s[0] == '+') then s[1..] else s;
    var dot := IndexOfDot(body);
    var whole := body[..dot];
    var fraction := if dot < |body| then body[dot + 1..] else "";
    if AllDigits(whole) && AllDigits(fraction) && |whole| + |fraction| > 0 then
      var magnitude := DigitsValue(whole) as real + DigitsValue(fraction) as real / Pow10(|fraction|) as real;
      Some(if negative then -magnitude else magnitude)
    else None
  }

  /** `pd.to_numeric(..., errors='coerce')` on one cell: text that reads as a number becomes
      that number, any other text becomes missing. */
  function Coerce(c: Cell): (d: Cell)
    ensures !d.Text?
  {
    match c
    case Text(s) => (match ParseDecimal(s) case Some(v) => Number(v) case None => Blank)
    case _ => c
  }

  /** A cell that ends up holding a number, whether or not its column needs converting. */
  predicate Convertible(c: Cell)
  {
    c.Number? || (c.Text? && ParseDecimal(c.text).Some?)
  }

  /** `is_numeric_dtype`: a column with no text in it is read with a numeric type. */
  predicate IsNumericColumn(col: seq<Cell>)
  {
    forall k :: 0 <= k < |col| ==> !col[k].Text?
  }

  /** The body of the conversion loop for one column: a numeric column is left as it is,
      any other is converted cell by cell. */
  function Normalise(col: seq<Cell>): (r: seq<Cell>)
    ensures |r| == |col|
    ensures forall k :: 0 <= k < |col| ==> (r[k].Number? <==> Convertible(col[k]))
    ensures forall k :: 0 <= k < |col| && col[k].Number? ==> r[k] == col[k]
    ensures forall k :: 0 <= k < |col| && col[k].Text? && ParseDecimal(col[k].text).Some? ==>
      r[k] == Number(ParseDecimal(col[k].text).value)
    ensures forall k :: 0 <= k < |col| && !Convertible(col[k]) ==> r[k] == Blank
    ensures IsNumericColumn(r)
  {
    if IsNumericColumn(col) then col else seq(|col|, k requires 0 <= k < |col| => Coerce(col[k]))
  }

  lemma NormaliseIdempotent(col: seq<Cell>)
    ensures Normalise(Normalise(col)) == Normalise(col)
  {
  }

  // ---------------------------------------------------------------- the template check

  /** `[col for col in required if col not in columns]` */
  function Absent(required: seq<string>, columns: seq<string>): (m: seq<string>)
  {
    if required == [] then []
    else (if required[0] in columns then [] else [required[0]]) + Absent(required[1..], columns)
  }

  /** The columns reported missing are exactly the required ones the sheet lacks. */
  lemma {:induction false} AbsentMembers(required: seq<string>, columns: seq<string>, x: string)
    ensures x in Absent(required, columns) <==> x in required && x !in columns
  {
    if required != [] {
      AbsentMembers(required[1..], columns, x);
      assert required == [required[0]] + required[1..];
    }
  }

  /** Nothing is reported missing exactly when every required column is present; the list
      is never longer than the required one. */
  lemma {:induction false} AbsentEmptyIff(required: seq<string>, columns: seq<string>)
    ensures |Absent(required, columns)| <= |required|
    ensures Absent(required, columns) == [] <==> forall c :: c in required ==> c in columns
  {
    if required != [] {
      AbsentEmptyIff(required[1..], columns);
      assert required == [required[0]] + required[1..];
      forall c | c in required[1..] ensures c in required { }
    }
  }

  /** `', '.join(xs)` */
  function Join(xs: seq<string>, sep: string): string
  {
    if xs == [] then "" else if |xs| == 1 then xs[0] else xs[0] + sep + Join(xs[1..], sep)
  }

  /** Every cell of every column in `cols` ends up numeric. */
  ghost predicate AllConvertible(data: map<string, seq<Cell>>, cols: seq<string>)
  {
    forall c, k :: c in cols && c in data && 0 <= k < |data[c]| ==> Convertible(data[c][k])
  }

  const NoRowsMessage: string := "Excel file contains no data rows"
  const MissingValuesMessage: string := "Excel file contains missing values in required columns"

  /** What `validate_excel_template` answers, stated on the sheet as it was read: missing
      columns first (all of them, in list order), then an empty sheet, then any required
      cell that would not hold a number after conversion. */
  ghost function TemplateVerdict(columns: seq<string>, data: map<string, seq<Cell>>, length: nat): (bool, string)
  {
    var missing := Absent(RequiredColumns, columns);
    if missing != [] then (false, "Missing required columns: " + Join(missing, ", "))
    else if length == 0 then (false, NoRowsMessage)
    else if !AllConvertible(data, RequiredColumns) then (false, MissingValuesMessage)
    else (true, "Valid")
  }

  /** The data after the conversion loop has run over `cols`, in order. */
  function NormaliseColumns(data: map<string, seq<Cell>>, cols: seq<string>): (r: map<string, seq<Cell>>)
    ensures r.Keys == data.Keys
    ensures forall c :: c in data && c !in cols ==> r[c] == data[c]
  {
    if cols == [] then data
    else
      var d := NormaliseColumns(data, cols[..|cols| - 1]);
      var c := cols[|cols| - 1];
      if c in d then d[c := Normalise(d[c])] else d
  }

  lemma {:induction false} NormaliseColumnsAt(data: map<string, seq<Cell>>, cols: seq<string>, c: string)
    requires c in data && c in cols
    ensures NormaliseColumns(data, cols)[c] == Normalise(data[c])
  {
    var init := cols[..|cols| - 1];
    var d := NormaliseColumns(data, init);
    if c == cols[|cols| - 1] {
      if c in init {
        NormaliseColumnsAt(data, init, c);
        NormaliseIdempotent(data[c]);
      }
    } else {
      assert c in init;
      NormaliseColumnsAt(data, init, c);
    }
  }

  /** `df[cols].isnull().any().any()` */
  predicate AnyMissing(data: map<string, seq<Cell>>, cols: seq<string>)
  {
    exists c, k :: c in cols && c in data && 0 <= k < |data[c]| && !data[c][k].Number?
  }

  /** Checking for missing values after the conversion is checking convertibility before it. */
  lemma MissingAfterConversion(data: map<string, seq<Cell>>, cols: seq<string>)
    ensures !AnyMissing(NormaliseColumns(data, cols), cols) <==> AllConvertible(data, cols)
  {
    var after := NormaliseColumns(data, cols);
    forall c | c in cols && c in data
      ensures after[c] == Normalise(data[c])
    {
      NormaliseColumnsAt(data, cols, c);
    }
  }

  /** A sheet as pandas holds it: the header row, one column of cells per header, and the
      number of data rows. */
  class DataFrame {
    var columns: seq<string>
    var data: map<string, seq<Cell>>
    var length: nat

    ghost predicate Valid()
      reads this
    {
      forall c :: c in columns ==> c in data && |data[c]| == length
    }

    constructor (columns0: seq<string>, data0: map<string, seq<Cell>>, length0: nat)
      requires forall c :: c in columns0 ==> c in data0 && |data0[c]| == length0
      ensures Valid() && columns == columns0 && data == data0 && length == length0
    {
      columns, data, length := columns0, data0, length0;
    }
  }

  lemma NormaliseColumnsStep(data: map<string, seq<Cell>>, cols: seq<string>, i: nat)
    requires i < |cols|
    ensures NormaliseColumns(data, cols[..i + 1]) ==
      var d := NormaliseColumns(data, cols[..i]);
      if cols[i] in d then d[cols[i] := Normalise(d[cols[i]])] else d
  {
    assert cols[..i + 1][..i] == cols[..i];
  }

  /** Replacing a column by its normalised cells keeps every column as long as the sheet. */
  lemma NormaliseKeepsShape(columns: seq<string>, data: map<string, seq<Cell>>, length: nat, c: string)
    requires forall x :: x in columns ==> x in data && |data[x]| == length
    requires c in data
    ensures forall x :: x in columns ==>
      x in data[c := Normalise(data[c])] && |data[c := Normalise(data[c])][x]| == length
  {
  }

  /** The conversion loop of `validate_excel_template`: each listed column that is not
      numeric is replaced, in place, by its converted cells. */
  method ConvertColumns(df: DataFrame, cols: seq<string>)
    requires df.Valid() && forall c :: c in cols ==> c in df.columns
    modifies df
    ensures df.Valid() && df.columns == old(df.columns) && df.length == old(df.length)
    ensures df.data == NormaliseColumns(old(df.data), cols)
  {
    ghost var before := df.data;
    var i := 0;
    while i < |cols|
      invariant 0 <= i <= |cols|
      invariant df.columns == old(df.columns) && df.length == old(df.length)
      invariant df.data == NormaliseColumns(before, cols[..i])
      invariant df.Valid()
    {
      var col := cols[i];
      var d := df.data;
      NormaliseColumnsStep(before, cols, i);
      if !IsNumericColumn(d[col]) {
        NormaliseKeepsShape(df.columns, d, df.length, col);
        df.data := d[col := Normalise(d[col])];
      }
      i := i + 1;
    }
    assert cols[..i] == cols;
  }

  /** `validate_excel_template(df)`.  The verdict is `TemplateVerdict` of the sheet as read.
      When the columns are all there and the sheet has rows, every non-numeric required
      column has been rewritten in place with its converted values; otherwise the sheet is
      untouched.  On a valid sheet every required cell holds a number. */
  method ValidateTemplate(df: DataFrame) returns (valid: bool, message: string)
    requires df.Valid()
    modifies df
    ensures df.Valid() && df.columns == old(df.columns) && df.length == old(df.length)
    ensures (valid, message) == TemplateVerdict(old(df.columns), old(df.data), old(df.length))
    ensures df.data == if Absent(RequiredColumns, old(df.columns)) == [] && old(df.length) > 0
                       then NormaliseColumns(old(df.data), RequiredColumns) else old(df.data)
    ensures valid ==> forall c :: c in RequiredColumns ==> c in df.data && |df.data[c]| == df.length
    ensures valid ==> !AnyMissing(df.data, RequiredColumns)
  {
    var missing := Absent(RequiredColumns, df.columns);
    if missing != [] {
      return false, "Missing required columns: " + Join(missing, ", ");
    }
    if df.length == 0 {
      return false, NoRowsMessage;
    }
    AbsentEmptyIff(RequiredColumns, df.columns);
    ghost var before := df.data;
    ConvertColumns(df, RequiredColumns);
    MissingAfterConversion(before, RequiredColumns);
    if AnyMissing(df.data, RequiredColumns) {
      return false, MissingValuesMessage;
    }
    return true, "Valid";
  }

  // ---------------------------------------------------------------- periods and dates

  /** `datetime(year, month, day)`; only the first of a month is ever built here. */
  datatype Date = Date(year: int, month: int, day: int)

  const MinYear: int := 1
  const MaxYear: int := 9999

  /** Months counted from January of year 0, so that "n months later" is "+ n". */
  function MonthIndex(d: Date): int
  {
    d.year * 12 + (d.month - 1)
  }

  predicate IsFirstOfMonth(d: Date)
  {
    MinYear <= d.year <= MaxYear && 1 <= d.month <= 12 && d.day == 1
  }

  /** Why an upload is refused, in the order the handler checks. */
  datatype UploadError =
    | Forbidden                     // role is not a Manager's
    | NotExcel                      // file name does not end in .xlsx or .xls
    | BadTemplate(message: string)  // validate_excel_template said no
    | InvalidMonth                  // monthly, and month falsy or outside 1..12
    | InvalidQuarter                // quarterly, and quarter falsy or outside 1..4
    | QuarterMissing                // neither monthly nor quarterly, and no quarter: None - 1 fails
    | DateOutOfRange                // datetime(...) refuses the year or month
    | PeriodExists                  // a period with the same parameters is stored
    | UnknownUploader               // the current user has no row: user.id fails

  /** `datetime(year, month, 1)`, which refuses a year outside 1..9999 or a month outside 1..12. */
  function FirstOfMonth(year: int, month: int): (r: Result<Date, UploadError>)
    ensures r.Ok? <==> MinYear <= year <= MaxYear && 1 <= month <= 12
    ensures r.Ok? ==> r.value == Date(year, month, 1) && IsFirstOfMonth(r.value)
    ensures r.Err? ==> r.error == DateOutOfRange
  {
    if MinYear <= year <= MaxYear && 1 <= month <= 12 then Ok(Date(year, month, 1)) else Err(DateOutOfRange)
  }

  /** The period checks and the start and end dates of the upload handler.  A monthly period
      runs from the first of its month to the first of the next; any other type is treated as
      quarterly and runs three months from the first month of its quarter. */
  function PeriodBounds(periodType: string, year: int, month: Option<int>, quarter: Option<int>)
    : (r: Result<(Date, Date), UploadError>)
    ensures periodType == "monthly" && (month.None? || month.value < 1 || month.value > 12) ==>
      r == Err(InvalidMonth)
    ensures periodType == "quarterly" && (quarter.None? || quarter.value < 1 || quarter.value > 4) ==>
      r == Err(InvalidQuarter)
    ensures periodType == "monthly" ==>
      (r.Ok? <==> month.Some? && 1 <= month.value <= 12 && MinYear <= year
                  && (if month.value == 12 then year + 1 else year) <= MaxYear)
    ensures periodType != "monthly" ==>
      (r.Ok? <==> quarter.Some? && 1 <= quarter.value <= 4 && MinYear <= year
                  && (if quarter.value == 4 then year + 1 else year) <= MaxYear)
    ensures r.Ok? && periodType == "monthly" ==>
      r.value.0 == Date(year, month.value, 1) && MonthIndex(r.value.1) == MonthIndex(r.value.0) + 1
    ensures r.Ok? && periodType != "monthly" ==>
      && r.value.0 == Date(year, (quarter.value - 1) * 3 + 1, 1)
      && r.value.0.month in {1, 4, 7, 10}
      && MonthIndex(r.value.1) == MonthIndex(r.value.0) + 3
    ensures r.Ok? ==> IsFirstOfMonth(r.value.0) && IsFirstOfMonth(r.value.1)
  {
    if periodType == "monthly" && (month.None? || month.value < 1 || month.value > 12) then Err(InvalidMonth)
    else if periodType == "quarterly" && (quarter.None? || quarter.value < 1 || quarter.value > 4) then Err(InvalidQuarter)
    else if periodType == "monthly" then
      var m := month.value;
      match FirstOfMonth(year, m)
      case Err(e) => Err(e)
      case Ok(start) =>
        match (if m == 12 then FirstOfMonth(year + 1, 1) else FirstOfMonth(year, m + 1))
        case Err(e) => Err(e)
        case Ok(end) => Ok((start, end))
    else if quarter.None? then Err(QuarterMissing)
    else
      var startMonth := (quarter.value - 1) * 3 + 1;
      match FirstOfMonth(year, startMonth)
      case Err(e) => Err(e)
      case Ok(start) =>
        var endMonth := startMonth + 3;
        match (if endMonth > 12 then FirstOfMonth(year + 1, endMonth - 12) else FirstOfMonth(year, endMonth))
        case Err(e) => Err(e)
        case Ok(end) => Ok((start, end))
  }

  // ---------------------------------------------------------------- the gates

  /** The claims of the bearer token the handlers receive. */
  datatype CurrentUser = CurrentUser(email: string, role: Option<string>)

  /** `current_user.get("role") in ["MANAGER", "Manager"]` */
  predicate IsManager(u: CurrentUser)
  {
    u.role == Some("MANAGER") || u.role == Some("Manager")
  }

  predicate EndsWith(s: string, suffix: string)
  {
    |suffix| <= |s| && s[|s| - |suffix|..] == suffix
  }

  /** `filename.endswith(('.xlsx', '.xls'))`, case-sensitive. */
  predicate IsExcelName(filename: string)
  {
    EndsWith(filename, ".xlsx") || EndsWith(filename, ".xls")
  }

  /** The checks that come before the sheet is read: the role first, then the file name. */
  function UploadGate(u: CurrentUser, filename: string): (r: Option<(int, UploadError)>)
    ensures !IsManager(u) ==> r == Some((403, Forbidden))
    ensures IsManager(u) && !IsExcelName(filename) ==> r == Some((400, NotExcel))
    ensures r.None? <==> IsManager(u) && IsExcelName(filename)
  {
    if !IsManager(u) then Some((403, Forbidden))
    else if !IsExcelName(filename) then Some((400, NotExcel))
    else None
  }

  // ---------------------------------------------------------------- stored data

  datatype Period = Period(periodType: string, year: int, month: Option<int>, quarter: Option<int>,
                           start: Date, end: Date, uploadedBy: int)

  /** A row of `financial_data`: its period, the required columns' values in list order, and
      the soft-delete flag. */
  datatype Record = Record(periodId: int, values: seq<real>, isDeleted: bool)

  /** A row of `upload_history`. */
  datatype HistoryEntry = HistoryEntry(filename: string, uploadedBy: int, periodId: Option<int>,
                                       status: string, rowsProcessed: nat)

  /** The filter of the existing-period query: same type and year, and the same month for a
      monthly period or the same quarter for a quarterly one. */
  predicate SamePeriod(p: Period, periodType: string, year: int, month: Option<int>, quarter: Option<int>)
  {
    p.periodType == periodType && p.year == year
    && (periodType == "monthly" ==> p.month == month)
    && (periodType == "quarterly" ==> p.quarter == quarter)
  }

  /** `get_period_data`'s filter: the records of one period that are not soft-deleted, in
      table order. */
  function Visible(records: seq<Record>, periodId: int): seq<Record>
  {
    if records == [] then []
    else
      (if records[0].periodId == periodId && !records[0].isDeleted then [records[0]] else [])
      + Visible(records[1..], periodId)
  }

  /** The filter keeps exactly the live records of the period. */
  lemma {:induction false} VisibleMembers(records: seq<Record>, periodId: int, x: Record)
    ensures x in Visible(records, periodId) <==> x in records && x.periodId == periodId && !x.isDeleted
  {
    if records != [] {
      VisibleMembers(records[1..], periodId, x);
      assert records == [records[0]] + records[1..];
    }
  }

  lemma {:induction false} VisibleAppend(a: seq<Record>, b: seq<Record>, periodId: int)
    ensures Visible(a + b, periodId) == Visible(a, periodId) + Visible(b, periodId)
  {
    if a == [] {
      assert a + b == b;
    } else {
      var h := if a[0].periodId == periodId && !a[0].isDeleted then [a[0]] else [];
      assert (a + b)[0] == a[0];
      assert (a + b)[1..] == a[1..] + b;
      assert Visible(a + b, periodId) == h + Visible(a[1..] + b, periodId);
      VisibleAppend(a[1..], b, periodId);
    }
  }

  /** The bulk update `is_deleted = True` over the records of one period. */
  function MarkDeleted(records: seq<Record>, periodId: int): (r: seq<Record>)
    ensures |r| == |records|
    ensures forall k :: 0 <= k < |records| ==>
      r[k] == if records[k].periodId == periodId then records[k].(isDeleted := true) else records[k]
  {
    seq(|records|, k requires 0 <= k < |records| =>
      if records[k].periodId == periodId then records[k].(isDeleted := true) else records[k])
  }

  /** After the soft delete nothing of that period is visible, and every other period reads
      exactly as before. */
  lemma {:induction false} VisibleAfterDelete(records: seq<Record>, p: int, q: int)
    ensures Visible(MarkDeleted(records, p), p) == []
    ensures q != p ==> Visible(MarkDeleted(records, p), q) == Visible(records, q)
  {
    if records != [] {
      VisibleAfterDelete(records[1..], p, q);
      assert MarkDeleted(records, p)[1..] == MarkDeleted(records[1..], p);
    }
  }

  /** The records an upload adds: one per sheet row, all in the new period, each holding
      that row's value of every required column in list order. */
  function NewRecords(periodId: int, data: map<string, seq<Cell>>, length: nat): (r: seq<Record>)
    requires forall c :: c in RequiredColumns ==> c in data && |data[c]| == length
    ensures |r| == length
    ensures forall k :: 0 <= k < length ==>
      r[k].periodId == periodId && !r[k].isDeleted && |r[k].values| == |RequiredColumns|
    ensures forall k, i :: 0 <= k < length && 0 <= i < |RequiredColumns| ==>
      r[k].values[i] == CellValue(data[RequiredColumns[i]][k])
  {
    seq(length, k requires 0 <= k < length =>
      Record(periodId, seq(|RequiredColumns|, i requires 0 <= i < |RequiredColumns| =>
        CellValue(data[RequiredColumns[i]][k])), false))
  }

  /** `float(cell)` on a validated cell. */
  function CellValue(c: Cell): real
  {
    if c.Number? then c.value else 0.0
  }

  lemma VisibleNew(periodId: int, data: map<string, seq<Cell>>, length: nat)
    requires forall c :: c in RequiredColumns ==> c in data && |data[c]| == length
    ensures Visible(NewRecords(periodId, data, length), periodId) == NewRecords(periodId, data, length)
  {
    var rs := NewRecords(periodId, data, length);
    VisibleAllOf(rs, periodId);
  }

  lemma {:induction false} VisibleAllOf(rs: seq<Record>, periodId: int)
    requires forall k :: 0 <= k < |rs| ==> rs[k].periodId == periodId && !rs[k].isDeleted
    ensures Visible(rs, periodId) == rs
  {
    if rs != [] {
      VisibleAllOf(rs[1..], periodId);
    }
  }

  lemma {:induction false} VisibleNoneOf(rs: seq<Record>, periodId: int)
    requires forall k :: 0 <= k < |rs| ==> rs[k].periodId < periodId
    ensures Visible(rs, periodId) == []
  {
    if rs != [] {
      VisibleNoneOf(rs[1..], periodId);
    }
  }

  /** Some stored period has the same parameters. */
  predicate Duplicate(periods: map<int, Period>, periodType: string, year: int, month: Option<int>, quarter: Option<int>)
  {
    exists id :: id in periods && SamePeriod(periods[id], periodType, year, month, quarter)
  }

  /** The row a new period is stored as: the month only for a monthly period, the quarter
      only for a quarterly one. */
  function NewPeriod(periodType: string, year: int, month: Option<int>, quarter: Option<int>,
                     start: Date, end: Date, uploadedBy: int): (p: Period)
    ensures SamePeriod(p, periodType, year, month, quarter)
    ensures p.start == start && p.end == end && p.uploadedBy == uploadedBy
  {
    Period(periodType, year, if periodType == "monthly" then month else None,
           if periodType == "quarterly" then quarter else None, start, end, uploadedBy)
  }

  /** An endpoint's answer. */
  datatype Reply = Done | Refused(status: int, detail: string)

  datatype UploadReply = Uploaded(periodId: int, rowsProcessed: nat) | UploadRefused(status: int, reason: UploadError)

  /** The three tables the router touches, and the next free period id. */
  class Database {
    var periods: map<int, Period>
    var records: seq<Record>
    var history: seq<HistoryEntry>
    var nextId: int

    /** Ids are handed out in increasing order: every stored period, and every record's
        period, has an id below the next one. */
    ghost predicate Valid()
      reads this
    {
      && (forall id :: id in periods ==> id < nextId)
      && (forall k :: 0 <= k < |records| ==> records[k].periodId < nextId)
    }

    constructor ()
      ensures Valid() && periods == map[] && records == [] && history == []
    {
      periods, records, history, nextId := map[], [], [], 1;
    }

    /** `get_period_data`: 404 for an unknown period, else the period with its visible records. */
    function GetPeriodData(periodId: int): (r: Result<(Period, seq<Record>), int>)
      reads this
      ensures r.Err? <==> periodId !in periods
      ensures r.Err? ==> r.error == 404
      ensures r.Ok? ==> r.value == (periods[periodId], Visible(records, periodId))
    {
      if periodId !in periods then Err(404) else Ok((periods[periodId], Visible(records, periodId)))
    }

    /** `delete_period`: Managers only, then 404 for an unknown period; otherwise every
        record of the period is flagged deleted (others untouched) and the period is
        removed. */
    method DeletePeriod(u: CurrentUser, periodId: int) returns (r: Reply)
      requires Valid()
      modifies this
      ensures Valid() && history == old(history) && nextId == old(nextId)
      ensures !IsManager(u) ==>
        r == Refused(403, "Only Managers can delete financial data")
        && periods == old(periods) && records == old(records)
      ensures IsManager(u) && periodId !in old(periods) ==>
        r == Refused(404, "Period not found") && periods == old(periods) && records == old(records)
      ensures IsManager(u) && periodId in old(periods) ==>
        r == Done && periods == old(periods) - {periodId} && records == MarkDeleted(old(records), periodId)
    {
      if !IsManager(u) {
        return Refused(403, "Only Managers can delete financial data");
      }
      if periodId !in periods {
        return Refused(404, "Period not found");
      }
      records := MarkDeleted(records, periodId);
      periods := periods - {periodId};
      r := Done;
    }

    /** The row loop of the upload: each record is added in turn, after the existing ones. */
    method AppendRecords(added: seq<Record>)
      requires Valid() && forall k :: 0 <= k < |added| ==> added[k].periodId < nextId
      modifies this
      ensures Valid() && records == old(records) + added
      ensures periods == old(periods) && history == old(history) && nextId == old(nextId)
    {
      var k := 0;
      while k < |added|
        invariant 0 <= k <= |added|
        invariant records == old(records) + added[..k]
        invariant periods == old(periods) && history == old(history) && nextId == old(nextId)
        invariant Valid()
      {
        records := records + [added[k]];
        assert added[..k + 1] == added[..k] + [added[k]];
        k := k + 1;
      }
      assert added[..k] == added;
    }

    /** The part of the upload after the sheet and the period have been checked: the
        existing-period lookup, then the insertions.  A duplicate is refused with a "failed"
        history row for the uploader; a current user with no row (`uploader` None) fails
        before anything is stored.  Otherwise the period gets the next id, one record per
        sheet row is added and a "success" history row is written, and reading the period
        back yields exactly the new records. */
    method StorePeriod(filename: string, periodType: string, year: int, month: Option<int>, quarter: Option<int>,
                       start: Date, end: Date, uploader: Option<int>, data: map<string, seq<Cell>>, length: nat)
      returns (r: UploadReply)
      requires Valid()
      requires forall c :: c in RequiredColumns ==> c in data && |data[c]| == length
      modifies this
      ensures Valid()
      ensures nextId == if r.Uploaded? then old(nextId) + 1 else old(nextId)
      ensures uploader.None? ==>
        && r == UploadRefused(500, UnknownUploader)
        && periods == old(periods) && records == old(records) && history == old(history)
      ensures uploader.Some? && Duplicate(old(periods), periodType, year, month, quarter) ==>
        && r == UploadRefused(500, PeriodExists)
        && periods == old(periods) && records == old(records)
        && history == old(history) + [HistoryEntry(filename, uploader.value, None, "failed", 0)]
      ensures uploader.Some? && !Duplicate(old(periods), periodType, year, month, quarter) ==>
        var period := NewPeriod(periodType, year, month, quarter, start, end, uploader.value);
        && r == Uploaded(old(nextId), length)
        && old(nextId) !in old(periods)
        && periods == old(periods)[old(nextId) := period]
        && records == old(records) + NewRecords(old(nextId), data, length)
        && history == old(history) + [HistoryEntry(filename, uploader.value, Some(old(nextId)), "success", length)]
        && GetPeriodData(old(nextId)) == Ok((period, NewRecords(old(nextId), data, length)))
    {
      var duplicate := exists id :: id in periods && SamePeriod(periods[id], periodType, year, month, quarter);
      if duplicate {
        if uploader.None? {
          return UploadRefused(500, UnknownUploader);
        }
        history := history + [HistoryEntry(filename, uploader.value, None, "failed", 0)];
        return UploadRefused(500, PeriodExists);
      }
      if uploader.None? {
        return UploadRefused(500, UnknownUploader);
      }
      var id := nextId;
      var period := NewPeriod(periodType, year, month, quarter, start, end, uploader.value);
      periods := periods[id := period];
      nextId := nextId + 1;
      ghost var before := records;
      var added := NewRecords(id, data, length);
      AppendRecords(added);
      history := history + [HistoryEntry(filename, uploader.value, Some(id), "success", length)];
      VisibleAppend(before, added, id);
      VisibleNoneOf(before, id);
      VisibleNew(id, data, length);
      assert Visible(records, id) == added;
      assert id in periods && periods[id] == period;
      r := Uploaded(id, length);
    }

    /** `upload_financial_data`.  The role and the file name are checked first (403, 400),
        with nothing changed.  Every later failure ends as a 500, because the handler's
        catch-all turns its own 400s into 500s: the template, then the period, then what
        `StorePeriod` refuses.  A new period is stored only when every check passes. */
    method Upload(u: CurrentUser, filename: string, df: DataFrame, periodType: string, year: int,
                  month: Option<int>, quarter: Option<int>, uploader: Option<int>)
      returns (r: UploadReply)
      requires Valid() && df.Valid()
      modifies this, df
      ensures Valid() && df.Valid() && df.columns == old(df.columns) && df.length == old(df.length)
      ensures nextId == if r.Uploaded? then old(nextId) + 1 else old(nextId)
      ensures UploadGate(u, filename).Some? ==>
        && r == UploadRefused(UploadGate(u, filename).value.0, UploadGate(u, filename).value.1)
        && periods == old(periods) && records == old(records) && history == old(history)
        && df.data == old(df.data)
      ensures UploadGate(u, filename).None? && !TemplateVerdict(old(df.columns), old(df.data), old(df.length)).0 ==>
        && r == UploadRefused(500, BadTemplate(TemplateVerdict(old(df.columns), old(df.data), old(df.length)).1))
        && periods == old(periods) && records == old(records) && history == old(history)
      ensures UploadGate(u, filename).None? && TemplateVerdict(old(df.columns), old(df.data), old(df.length)).0
              && PeriodBounds(periodType, year, month, quarter).Err? ==>
        && r == UploadRefused(500, PeriodBounds(periodType, year, month, quarter).error)
        && periods == old(periods) && records == old(records) && history == old(history)
      ensures UploadGate(u, filename).None? && TemplateVerdict(old(df.columns), old(df.data), old(df.length)).0
              && PeriodBounds(periodType, year, month, quarter).Ok? ==>
        var bounds := PeriodBounds(periodType, year, month, quarter).value;
        var period := NewPeriod(periodType, year, month, quarter, bounds.0, bounds.1, if uploader.Some? then uploader.value else 0);
        && (forall c :: c in RequiredColumns ==> c in df.data && |df.data[c]| == df.length)
        && df.data == NormaliseColumns(old(df.data), RequiredColumns)
        && (uploader.None? ==>
              r == UploadRefused(500, UnknownUploader)
              && periods == old(periods) && records == old(records) && history == old(history))
        && (uploader.Some? && Duplicate(old(periods), periodType, year, month, quarter) ==>
              r == UploadRefused(500, PeriodExists)
              && periods == old(periods) && records == old(records)
              && history == old(history) + [HistoryEntry(filename, uploader.value, None, "failed", 0)])
        && (uploader.Some? && !Duplicate(old(periods), periodType, year, month, quarter) ==>
              r == Uploaded(old(nextId), df.length)
              && old(nextId) !in old(periods)
              && periods == old(periods)[old(nextId) := period]
              && records == old(records) + NewRecords(old(nextId), df.data, df.length)
              && history == old(history) + [HistoryEntry(filename, uploader.value, Some(old(nextId)), "success", df.length)]
              && GetPeriodData(old(nextId)) == Ok((period, NewRecords(old(nextId), df.data, df.length))))
    {
      var gate := UploadGate(u, filename);
      if gate.Some? {
        return UploadRefused(gate.value.0, gate.value.1);
      }
      var valid, message := ValidateTemplate(df);
      if !valid {
        return UploadRefused(500, BadTemplate(message));
      }
      var bounds := PeriodBounds(periodType, year, month, quarter);
      if bounds.Err? {
        return UploadRefused(500, bounds.error);
      }
      r := StorePeriod(filename, periodType, year, month, quarter, bounds.value.0, bounds.value.1,
                       uploader, df.data, df.length);
    }
  }
}
