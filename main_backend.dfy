/** The SQLAlchemy backend (`backend/main.py`): the merchant search with its
    OR-of-four-conditions semantics, inclusive transaction bounds and paging,
    the single-merchant lookup, the upload's filename date parse and column
    check with their error mapping, and the stored data date. The table is a
    sequence of rows in scan order; the database, pandas and the HTTP layer
    are not modelled. */
module MainBackend {
  import opened Common
  import opened Merchants

  /** The data date `get_merchants` always reports, and the default
      `get_data_date` falls back to. */
  const DefaultDataDate: string := "4月27日"

  // ---------------------------------------------------------------------------
  // GET /api/merchants/
  // ---------------------------------------------------------------------------

  /** One entry of the `conditions` list: three exact matches and one
      substring match on the merchant name. */
  datatype Condition =
    | InstitutionIdIs(institutionId: string)
    | InstitutionIs(institution: string)
    | MerchantIdIs(merchantId: string)
    | MerchantNameLike(fragment: string)

  predicate ConditionHolds(c: Condition, m: Merchant)
  {
    match c
    case InstitutionIdIs(v) => m.institutionId == v
    case InstitutionIs(v) => m.institution == v
    case MerchantIdIs(v) => m.merchantId == v
    case MerchantNameLike(v) => Contains(m.merchantName, v)
  }

  /** One `query.filter(...)` applied to the query: the OR of the conditions,
      or one of the two transaction-count bounds. */
  datatype RowFilter =
    | AnyOf(conditions: seq<Condition>)
    | AtLeast(minimum: int)
    | AtMost(maximum: int)

  predicate FilterHolds(f: RowFilter, m: Merchant)
  {
    match f
    case AnyOf(cs) => exists c | c in cs :: ConditionHolds(c, m)
    case AtLeast(n) => m.transactionCount >= n
    case AtMost(n) => m.transactionCount <= n
  }

  /** Successive `query.filter` calls are AND-ed. */
  predicate PassesAll(filters: seq<RowFilter>, m: Merchant)
  {
    forall f | f in filters :: FilterHolds(f, m)
  }

  /** What the database returns for a query built from `filters`, in scan order. */
  function Execute(table: seq<Merchant>, filters: seq<RowFilter>): seq<Merchant>
  {
    Filter(table, m => PassesAll(filters, m))
  }

  /** None of the four id/name parameters is supplied. */
  predicate NoIdOrName(q: QueryParams)
  {
    !Supplied(q.institutionId) && !Supplied(q.institution)
      && !Supplied(q.merchantId) && !Supplied(q.merchantName)
  }

  /** Some supplied id/name parameter matches the record. */
  predicate IdOrNameHit(m: Merchant, q: QueryParams)
  {
    || (Supplied(q.institutionId) && m.institutionId == q.institutionId.value)
    || (Supplied(q.institution) && m.institution == q.institution.value)
    || (Supplied(q.merchantId) && m.merchantId == q.merchantId.value)
    || (Supplied(q.merchantName) && Contains(m.merchantName, q.merchantName.value))
  }

  /** The meaning of a query: any supplied id/name condition holds (every
      record when none is supplied), and the record lies within the supplied
      inclusive transaction bounds. */
  predicate RecordMatches(m: Merchant, q: QueryParams)
  {
    && (NoIdOrName(q) || IdOrNameHit(m, q))
    && (q.minTransactions.Some? ==> m.transactionCount >= q.minTransactions.value)
    && (q.maxTransactions.Some? ==> m.transactionCount <= q.maxTransactions.value)
  }

  /** All records a query selects, before paging. */
  function Selected(table: seq<Merchant>, q: QueryParams): seq<Merchant>
  {
    Filter(table, m => RecordMatches(m, q))
  }

  /** The `conditions` list of `get_merchants`: one entry per supplied
      id/name parameter, in parameter order. Their OR is exactly "some
      supplied id/name parameter matches". */
  method BuildConditions(q: QueryParams) returns (conditions: seq<Condition>)
    ensures conditions == [] <==> NoIdOrName(q)
    ensures forall m :: FilterHolds(AnyOf(conditions), m) <==> IdOrNameHit(m, q)
  {
    conditions := [];
    if Supplied(q.institutionId) {
      conditions := conditions + [InstitutionIdIs(q.institutionId.value)];
    }
    if Supplied(q.institution) {
      conditions := conditions + [InstitutionIs(q.institution.value)];
    }
    if Supplied(q.merchantId) {
      conditions := conditions + [MerchantIdIs(q.merchantId.value)];
    }
    if Supplied(q.merchantName) {
      conditions := conditions + [MerchantNameLike(q.merchantName.value)];
    }
    assert forall c | c in conditions ::
      || (Supplied(q.institutionId) && c == InstitutionIdIs(q.institutionId.value))
      || (Supplied(q.institution) && c == InstitutionIs(q.institution.value))
      || (Supplied(q.merchantId) && c == MerchantIdIs(q.merchantId.value))
      || (Supplied(q.merchantName) && c == MerchantNameLike(q.merchantName.value));
    forall m ensures FilterHolds(AnyOf(conditions), m) <==> IdOrNameHit(m, q) {
      if Supplied(q.institutionId) { assert InstitutionIdIs(q.institutionId.value) in conditions; }
      if Supplied(q.institution) { assert InstitutionIs(q.institution.value) in conditions; }
      if Supplied(q.merchantId) { assert MerchantIdIs(q.merchantId.value) in conditions; }
      if Supplied(q.merchantName) { assert MerchantNameLike(q.merchantName.value) in conditions; }
    }
  }

  /** The chain of `query.filter` calls: the OR of the conditions when there
      are any, then each supplied bound. A row passes them all exactly when
      it matches the query. */
  method BuildFilters(q: QueryParams, conditions: seq<Condition>) returns (filters: seq<RowFilter>)
    requires conditions == [] <==> NoIdOrName(q)
    requires forall m :: FilterHolds(AnyOf(conditions), m) <==> IdOrNameHit(m, q)
    ensures forall m :: PassesAll(filters, m) <==> RecordMatches(m, q)
  {
    filters := [];
    if conditions != [] {
      filters := filters + [AnyOf(conditions)];
    }
    if q.minTransactions.Some? {
      filters := filters + [AtLeast(q.minTransactions.value)];
    }
    if q.maxTransactions.Some? {
      filters := filters + [AtMost(q.maxTransactions.value)];
    }
    assert forall f | f in filters ::
      || (conditions != [] && f == AnyOf(conditions))
      || (q.minTransactions.Some? && f == AtLeast(q.minTransactions.value))
      || (q.maxTransactions.Some? && f == AtMost(q.maxTransactions.value));
    forall m ensures PassesAll(filters, m) <==> RecordMatches(m, q) {
      if conditions != [] { assert AnyOf(conditions) in filters; }
      if q.minTransactions.Some? { assert AtLeast(q.minTransactions.value) in filters; }
      if q.maxTransactions.Some? { assert AtMost(q.maxTransactions.value) in filters; }
    }
  }

  /** `get_merchants`: builds the condition list and the filter chain, counts
      the matches, then takes the page at offset `(page - 1) * page_size`. */
  method GetMerchants(table: seq<Merchant>, q: QueryParams) returns (resp: PaginatedResponse)
    requires q.pageSize > 0
    ensures resp.total == |Selected(table, q)|
    ensures resp.items == Window(Selected(table, q), (q.page - 1) * q.pageSize, q.pageSize)
    ensures resp.page == q.page && resp.pageSize == q.pageSize
    ensures IsCeilingQuotient(resp.totalPages, resp.total, q.pageSize)
    ensures resp.dataDate == DefaultDataDate
  {
    var conditions := BuildConditions(q);
    var filters := BuildFilters(q, conditions);
    var rows := Execute(table, filters);
    ExecuteSelects(table, q, filters);

    var totalCount := |rows|;
    var offset := (q.page - 1) * q.pageSize;
    var results := Window(rows, offset, q.pageSize);
    var totalPages := (totalCount + q.pageSize - 1) / q.pageSize;
    TotalPagesIsCeiling(totalCount, q.pageSize);
    resp := PaginatedResponse(results, totalCount, q.page, q.pageSize, totalPages, DefaultDataDate);
  }

  /** A filter chain that passes exactly the matching records selects them. */
  lemma ExecuteSelects(table: seq<Merchant>, q: QueryParams, filters: seq<RowFilter>)
    requires forall m :: PassesAll(filters, m) <==> RecordMatches(m, q)
    ensures Execute(table, filters) == Selected(table, q)
  {
    FilterCongruent(table, m => PassesAll(filters, m), m => RecordMatches(m, q));
  }

  /** `(total + page_size - 1) // page_size` is the ceiling of
      `total / page_size` (Python's `//` floors, which for these non-negative
      operands agrees with Dafny's `/`). */
  lemma TotalPagesIsCeiling(total: nat, pageSize: int)
    requires pageSize > 0
    ensures IsCeilingQuotient((total + pageSize - 1) / pageSize, total, pageSize)
  {
    var n := total + pageSize - 1;
    var q, r := n / pageSize, n % pageSize;
    assert n == q * pageSize + r;
    assert 0 <= r < pageSize;
    assert (q - 1) * pageSize == q * pageSize - pageSize;
  }

  // ---------------------------------------------------------------------------
  // GET /api/merchants/{merchant_id}
  // ---------------------------------------------------------------------------

  /** The reply of an endpoint: a value, or an HTTP error status. */
  datatype Reply<T> = Ok(value: T) | Error(status: int)

  /** `query(...).filter(merchant_id == id).first()`: the first row in scan
      order whose merchant id is `id`. */
  function FirstWithId(table: seq<Merchant>, id: string): (r: Option<Merchant>)
    ensures r.None? <==> forall i | 0 <= i < |table| :: table[i].merchantId != id
    ensures r.Some? ==> exists i | 0 <= i < |table| ::
      table[i] == r.value && r.value.merchantId == id
      && forall j | 0 <= j < i :: table[j].merchantId != id
  {
    if table == [] then None
    else if table[0].merchantId == id then Some(table[0])
    else
      var rest := FirstWithId(table[1..], id);
      assert forall j | 1 <= j < |table| :: table[j] == table[1..][j - 1];
      rest
  }

  /** `get_merchant`: the record with the given merchant id. The 404 raised
      for a missing id is inside the `try`, whose `except Exception` turns it
      into a 500. */
  function GetMerchant(table: seq<Merchant>, id: string): (r: Reply<Merchant>)
    ensures r.Ok? ==> r.value in table && r.value.merchantId == id
    ensures r.Error? <==> forall i | 0 <= i < |table| :: table[i].merchantId != id
    ensures r.Error? ==> r.status == 500
  {
    match FirstWithId(table, id)
    case Some(m) => Ok(m)
    case None => Error(500)
  }

  // ---------------------------------------------------------------------------
  // POST /api/upload/ : the filename date
  // ---------------------------------------------------------------------------

  const UploadPrefix: string := "未月活-"
  const ExcelSuffix: string := ".xlsx"
  /** The `data_date` an upload reports when no date was parsed. */
  const NotUpdated: string := "未更新"

  /** Python `int(s)` on a two-character string, restricted to ASCII digits
      (anything else raises `ValueError`). */
  function ParseTwoDigits(s: string): (r: Option<nat>)
    requires |s| == 2
    ensures r.Some? <==> IsAsciiDigit(s[0]) && IsAsciiDigit(s[1])
    ensures r.Some? ==> r.value < 100
  {
    if IsAsciiDigit(s[0]) && IsAsciiDigit(s[1])
    then Some(10 * DigitValue(s[0]) + DigitValue(s[1]))
    else None
  }

  /** A number below 100 written with two digits, leading zero included. */
  function TwoDigits(n: nat): (s: string)
    requires n < 100
    ensures |s| == 2
  {
    [DigitChar(n / 10), DigitChar(n % 10)]
  }

  /** Two digits read back as the number they were written from, and only
      from that one. */
  lemma ParseTwoDigitsRoundTrip(n: nat, s: string)
    requires n < 100 && |s| == 2
    ensures ParseTwoDigits(TwoDigits(n)) == Some(n)
    ensures ParseTwoDigits(s) == Some(n) ==> s == TwoDigits(n)
  {
    var t := TwoDigits(n);
    assert DigitValue(t[0]) == n / 10 && DigitValue(t[1]) == n % 10 by {
      assert DigitChar(DigitValue(t[0])) == t[0] && DigitChar(DigitValue(t[1])) == t[1];
      DigitCharInjective(DigitValue(t[0]), n / 10);
      DigitCharInjective(DigitValue(t[1]), n % 10);
    }
    if ParseTwoDigits(s) == Some(n) {
      assert 10 * DigitValue(s[0]) + DigitValue(s[1]) == n;
      assert DigitValue(s[0]) == n / 10 && DigitValue(s[1]) == n % 10;
      assert s[0] == t[0] && s[1] == t[1];
    }
  }

  lemma DigitCharInjective(a: nat, b: nat)
    requires a < 10 && b < 10 && DigitChar(a) == DigitChar(b)
    ensures a == b
  {
    assert DigitValue(DigitChar(a)) == a;
    assert DigitValue(DigitChar(b)) == b;
  }

  predicate ValidMonthDay(month: int, day: int)
  {
    1 <= month <= 12 && 1 <= day <= 31
  }

  /** The upload file name that carries the date `month`/`day`:
      `未月活-MMDD.xlsx`. */
  function FileNameFor(month: nat, day: nat): string
    requires month < 100 && day < 100
  {
    UploadPrefix + TwoDigits(month) + TwoDigits(day) + ExcelSuffix
  }

  /** The label `{month}月{day}日`, numbers without leading zeros. */
  function DateLabel(month: nat, day: nat): string
  {
    DecimalString(month) + "月" + DecimalString(day) + "日"
  }

  /** `filename` is the upload name of the (range-checked) date month/day. */
  predicate NamesDate(filename: string, month: int, day: int)
  {
    ValidMonthDay(month, day) && filename == FileNameFor(month, day)
  }

  /** The date parse in `upload_file`: cut the text between the prefix and
      the `.xlsx` suffix, drop one leading `-`, require four characters, read
      month and day with `int()`, check 1..12 and 1..31 (no per-month day
      check). A date comes out exactly for the names `未月活-MMDD.xlsx` with a
      month and day in range, and it is that month and day. */
  method ParseFileNameDate(filename: string) returns (formatted: Option<string>)
    ensures formatted.Some? <==> exists month, day :: NamesDate(filename, month, day)
    ensures forall month, day :: NamesDate(filename, month, day) ==>
      formatted == Some(DateLabel(month, day))
  {
    formatted := None;
    if IsPrefix(UploadPrefix, filename) && IsSuffix(ExcelSuffix, filename) {
      PrefixAndSuffixApart(filename);
      var dateStr := filename[3..|filename| - 5];
      if IsPrefix("-", dateStr) {
        dateStr := dateStr[1..];
      }
      if |dateStr| == 4 {
        var month := ParseTwoDigits(dateStr[..2]);
        var day := ParseTwoDigits(dateStr[2..]);
        if month.Some? && day.Some? {
          if 1 <= month.value <= 12 && 1 <= day.value <= 31 {
            formatted := Some(DateLabel(month.value, day.value));
            assert NamesDate(filename, month.value, day.value) by {
              NamesDateIff(filename, month.value, day.value);
            }
          }
        }
      }
    }
    forall month, day | NamesDate(filename, month, day)
      ensures formatted == Some(DateLabel(month, day))
    {
      NamesDateIff(filename, month, day);
    }
  }

  /** The prefix `未月活-` and the suffix `.xlsx` cannot overlap, so a name
      with both has at least nine characters. */
  lemma PrefixAndSuffixApart(filename: string)
    requires IsPrefix(UploadPrefix, filename) && IsSuffix(ExcelSuffix, filename)
    ensures |filename| >= 9 && filename[3] == '-'
  {
    assert filename[3] == filename[..4][3] == '-';
  }

  /** The pieces of `未月活-MMDD.xlsx`. */
  lemma FileNameForParts(month: nat, day: nat)
    requires month < 100 && day < 100
    ensures var f := FileNameFor(month, day);
      && |f| == 13 && f[..4] == UploadPrefix && f[4..6] == TwoDigits(month)
      && f[6..8] == TwoDigits(day) && f[8..] == ExcelSuffix
  {
  }

  /** A name carries month/day exactly when it has the prefix and suffix,
      thirteen characters, and its four middle characters read as that month
      and day, both in range. */
  lemma NamesDateIff(f: string, month: int, day: int)
    ensures NamesDate(f, month, day) <==>
      && IsPrefix(UploadPrefix, f) && IsSuffix(ExcelSuffix, f) && |f| == 13
      && ParseTwoDigits(f[4..6]) == Some(month) && ParseTwoDigits(f[6..8]) == Some(day)
      && ValidMonthDay(month, day)
  {
    if NamesDate(f, month, day) {
      FileNameForParts(month, day);
      ParseTwoDigitsRoundTrip(month, f[4..6]);
      ParseTwoDigitsRoundTrip(day, f[6..8]);
    }
    if && IsPrefix(UploadPrefix, f) && IsSuffix(ExcelSuffix, f) && |f| == 13
       && ParseTwoDigits(f[4..6]) == Some(month) && ParseTwoDigits(f[6..8]) == Some(day)
       && ValidMonthDay(month, day)
    {
      ParseTwoDigitsRoundTrip(month, f[4..6]);
      ParseTwoDigitsRoundTrip(day, f[6..8]);
      assert f == f[..4] + f[4..6] + f[6..8] + f[8..];
    }
  }

  // ---------------------------------------------------------------------------
  // POST /api/upload/ : column check and error mapping
  // ---------------------------------------------------------------------------

  const CountsColumn: string := "counts"
  const ValidTransactionsColumn: string := "有效交易笔数"

  /** The columns the upload requires, in the order they are reported. */
  const RequiredColumns: seq<string> := ["商户号", "商户名称", "机构", "机构号", ValidTransactionsColumn]

  /** `df.rename(columns={'counts': '有效交易笔数'})` on the column names. */
  function RenameColumns(columns: seq<string>): (r: seq<string>)
    ensures |r| == |columns|
    ensures forall c :: c in r <==>
      (c != CountsColumn && c in columns) || (c == ValidTransactionsColumn && CountsColumn in columns)
  {
    if columns == [] then []
    else
      [if columns[0] == CountsColumn then ValidTransactionsColumn else columns[0]]
      + RenameColumns(columns[1..])
  }

  /** The required columns absent after the rename, in the fixed order of
      `RequiredColumns`. */
  function MissingColumns(columns: seq<string>): (r: seq<string>)
    ensures forall i :: 0 <= i < |r| ==> r[i] in RequiredColumns && r[i] !in RenameColumns(columns)
    ensures forall c :: c in RequiredColumns && c !in RenameColumns(columns) ==> c in r
    ensures r == [] <==> forall i | 0 <= i < |RequiredColumns| :: RequiredColumns[i] in RenameColumns(columns)
    ensures IsSubsequence(r, RequiredColumns) && Distinct(r)
  {
    assert Distinct(RequiredColumns);
    var renamed := RenameColumns(columns);
    var r := Filter(RequiredColumns, c => c !in renamed);
    assert r != [] ==> r[0] !in renamed;
    r
  }

  /** What `pd.read_excel` and the per-row conversion produced: only the
      column names, the row count and whether every row converted matter here. */
  datatype SheetRead =
    | ReadFailed
    | Sheet(columns: seq<string>, rowCount: nat, rowsConvert: bool)

  /** Why an upload inside the `try` failed. `NotExcel`, `ColumnsMissing`
      and `BadRow` are raised as 400 and re-raised by the `except` as 500. */
  datatype UploadFailure = NotExcel | Unreadable | ColumnsMissing(missing: seq<string>) | BadRow

  datatype UploadError = Forbidden | Internal(cause: UploadFailure)

  datatype UploadResult = Uploaded(processed: nat, dataDate: string) | Rejected(error: UploadError)

  /** The HTTP status of a failed upload: the admin check is outside the
      `try` and stays 403; everything raised inside it becomes 500. */
  function UploadStatus(e: UploadError): (code: int)
    ensures code == 403 <==> e == Forbidden
    ensures code != 400
  {
    match e
    case Forbidden => 403
    case Internal(_) => 500
  }

  // ---------------------------------------------------------------------------
  // The `data_date` table (row id = 1)
  // ---------------------------------------------------------------------------

  /** The stored data date: the `date` column of row 1 of the `data_date`
      table; `None` when the row is missing or its date is NULL. */
  class DataDateTable {
    var date: Option<string>

    constructor ()
      ensures date == None
    {
      date := None;
    }

    /** `upload_file`. `isAdmin` is the authenticated user's flag, `sheet`
        what pandas read, `dateWriteFails` whether the date write raised
        (that error is logged and swallowed). */
    method UploadFile(isAdmin: bool, filename: string, sheet: SheetRead, dateWriteFails: bool)
      returns (r: UploadResult)
      modifies this
      ensures !isAdmin ==> r == Rejected(Forbidden)
      ensures isAdmin && !IsSuffix(ExcelSuffix, filename) ==> r == Rejected(Internal(NotExcel))
      ensures isAdmin && IsSuffix(ExcelSuffix, filename) && sheet.ReadFailed? ==>
        r == Rejected(Internal(Unreadable))
      ensures isAdmin && IsSuffix(ExcelSuffix, filename) && sheet.Sheet? ==>
        if MissingColumns(sheet.columns) != [] then
             r == Rejected(Internal(ColumnsMissing(MissingColumns(sheet.columns))))
             else if !sheet.rowsConvert then r == Rejected(Internal(BadRow))
             else r.Uploaded? && r.processed == sheet.rowCount
      ensures r.Uploaded? ==> forall month, day :: NamesDate(filename, month, day) ==>
        r.dataDate == DateLabel(month, day) && date == (if dateWriteFails then old(date) else Some(r.dataDate))
      ensures r.Uploaded? && !(exists month, day :: NamesDate(filename, month, day)) ==>
        r.dataDate == NotUpdated
      ensures !r.Uploaded? || !(exists month, day :: NamesDate(filename, month, day)) ==> date == old(date)
    {
      if !isAdmin {
        return Rejected(Forbidden);
      }
      if !IsSuffix(ExcelSuffix, filename) {
        return Rejected(Internal(NotExcel));
      }
      var formatted := ParseFileNameDate(filename);
      match sheet
      case ReadFailed =>
        r := Rejected(Internal(Unreadable));
      case Sheet(columns, rowCount, rowsConvert) =>
        var missing := MissingColumns(columns);
        if missing != [] {
          return Rejected(Internal(ColumnsMissing(missing)));
        }
        if !rowsConvert {
          return Rejected(Internal(BadRow));
        }
        if formatted.Some? && !dateWriteFails {
          date := formatted;
        }
        r := Uploaded(rowCount, if formatted.Some? then formatted.value else NotUpdated);
    }

    /** `get_data_date`: the stored date when it is present and non-empty;
        otherwise the default, which is then stored. Any database error
        (`fails`) yields the default and stores nothing. */
    method GetDataDate(fails: bool) returns (d: string)
      modifies this
      ensures fails ==> d == DefaultDataDate && date == old(date)
      ensures !fails && old(date).Some? && old(date).value != "" ==>
        d == old(date).value && date == old(date)
      ensures !fails && !(old(date).Some? && old(date).value != "") ==>
        d == DefaultDataDate && date == Some(DefaultDataDate)
      ensures d != ""
    {
      if fails {
        return DefaultDataDate;
      }
      if date.Some? && date.value != "" {
        return date.value;
      }
      date := Some(DefaultDataDate);
      d := DefaultDataDate;
    }
  }
}
