/** The alternative sqlite3 backend (`backend/app/main.py`): the merchant
    search whose every supplied parameter adds an AND-ed substring clause on
    an id OR a name, its paging, the `data_date` it derives from a fixed file
    name, and the upload's error reply. */
module SqliteBackend {
  import opened Common
  import opened Merchants

  // ---------------------------------------------------------------------------
  // GET /api/merchants/
  // ---------------------------------------------------------------------------

  /** One ` AND (...)` fragment appended to the SQL text, with the term its
      two `LIKE ?` placeholders are bound to (as `%term%`). */
  datatype Clause =
    | InstitutionLike(term: string)   // institution_id LIKE ? OR institution LIKE ?
    | MerchantLike(term: string)      // merchant_id LIKE ? OR merchant_name LIKE ?

  predicate InstitutionHit(m: Merchant, t: string)
  {
    Contains(m.institutionId, t) || Contains(m.institution, t)
  }

  predicate MerchantHit(m: Merchant, t: string)
  {
    Contains(m.merchantId, t) || Contains(m.merchantName, t)
  }

  predicate ClauseHolds(c: Clause, m: Merchant)
  {
    match c
    case InstitutionLike(t) => InstitutionHit(m, t)
    case MerchantLike(t) => MerchantHit(m, t)
  }

  /** `WHERE 1=1 AND ... AND ...`: every clause holds. */
  predicate AllClausesHold(clauses: seq<Clause>, m: Merchant)
  {
    forall c | c in clauses :: ClauseHolds(c, m)
  }

  /** The meaning of a query: each supplied institution parameter occurs in
      the institution id or name, and each supplied merchant parameter occurs
      in the merchant id or name. */
  predicate RowMatches(m: Merchant, q: QueryParams)
  {
    && (Supplied(q.institutionId) ==> InstitutionHit(m, q.institutionId.value))
    && (Supplied(q.institution) ==> InstitutionHit(m, q.institution.value))
    && (Supplied(q.merchantId) ==> MerchantHit(m, q.merchantId.value))
    && (Supplied(q.merchantName) ==> MerchantHit(m, q.merchantName.value))
  }

  /** All rows a query selects, before LIMIT/OFFSET. */
  function Selected(table: seq<Merchant>, q: QueryParams): seq<Merchant>
  {
    Filter(table, m => RowMatches(m, q))
  }

  /** The clauses `get_merchants` appends to `SELECT * FROM merchants WHERE 1=1`,
      one per supplied parameter, in parameter order. */
  method BuildClauses(q: QueryParams) returns (clauses: seq<Clause>)
    ensures forall m :: AllClausesHold(clauses, m) <==> RowMatches(m, q)
    ensures |clauses| == (if Supplied(q.institutionId) then 1 else 0) + (if Supplied(q.institution) then 1 else 0)
                        + (if Supplied(q.merchantId) then 1 else 0) + (if Supplied(q.merchantName) then 1 else 0)
  {
    clauses := [];
    if Supplied(q.institutionId) {
      clauses := clauses + [InstitutionLike(q.institutionId.value)];
    }
    if Supplied(q.institution) {
      clauses := clauses + [InstitutionLike(q.institution.value)];
    }
    if Supplied(q.merchantId) {
      clauses := clauses + [MerchantLike(q.merchantId.value)];
    }
    if Supplied(q.merchantName) {
      clauses := clauses + [MerchantLike(q.merchantName.value)];
    }
    assert forall c | c in clauses ::
      || (Supplied(q.institutionId) && c == InstitutionLike(q.institutionId.value))
      || (Supplied(q.institution) && c == InstitutionLike(q.institution.value))
      || (Supplied(q.merchantId) && c == MerchantLike(q.merchantId.value))
      || (Supplied(q.merchantName) && c == MerchantLike(q.merchantName.value));
    forall m ensures AllClausesHold(clauses, m) <==> RowMatches(m, q) {
      if Supplied(q.institutionId) { assert InstitutionLike(q.institutionId.value) in clauses; }
      if Supplied(q.institution) { assert InstitutionLike(q.institution.value) in clauses; }
      if Supplied(q.merchantId) { assert MerchantLike(q.merchantId.value) in clauses; }
      if Supplied(q.merchantName) { assert MerchantLike(q.merchantName.value) in clauses; }
    }
  }

  /** The two institution parameters (and the two merchant parameters) add
      the same clause, so sending one term in both selects what sending it
      in one of them does. */
  lemma DuplicatedClauseIsRedundant(m: Merchant, q: QueryParams)
    ensures q.institution == q.institutionId ==>
      (RowMatches(m, q) <==> RowMatches(m, q.(institution := None)))
    ensures q.merchantName == q.merchantId ==>
      (RowMatches(m, q) <==> RowMatches(m, q.(merchantName := None)))
  {
  }

  /** `math.ceil(total / page_size)`, computed on integers. */
  function PageCount(total: nat, pageSize: int): (pages: int)
    requires pageSize > 0
    ensures IsCeilingQuotient(pages, total, pageSize)
  {
    var q, r := total / pageSize, total % pageSize;
    assert total == q * pageSize + r;
    assert (q - 1) * pageSize == q * pageSize - pageSize;
    assert (q + 1) * pageSize == q * pageSize + pageSize;
    if r == 0 then q else q + 1
  }

  /** `get_merchants`: the data date, the clause list, `COUNT(*)` over the
      unpaged query, then `LIMIT page_size OFFSET (page - 1) * page_size`.
      `fileExists` is `os.path.exists("merchant_data.xlsx")`. */
  method GetMerchants(table: seq<Merchant>, q: QueryParams, fileExists: bool)
    returns (resp: PaginatedResponse)
    requires q.pageSize > 0
    ensures resp.total == |Selected(table, q)|
    ensures resp.items == Window(Selected(table, q), (q.page - 1) * q.pageSize, q.pageSize)
    ensures resp.page == q.page && resp.pageSize == q.pageSize
    ensures IsCeilingQuotient(resp.totalPages, resp.total, q.pageSize)
    ensures resp.dataDate == ""
  {
    var dataDate := DataDate(fileExists);
    var clauses := BuildClauses(q);
    var rows := Filter(table, m => AllClausesHold(clauses, m));
    FilterCongruent(table, m => AllClausesHold(clauses, m), m => RowMatches(m, q));
    var total := |rows|;
    var items := Window(rows, (q.page - 1) * q.pageSize, q.pageSize);
    resp := PaginatedResponse(items, total, q.page, q.pageSize, PageCount(total, q.pageSize), dataDate);
  }

  // ---------------------------------------------------------------------------
  // The data date derived from the stored file name
  // ---------------------------------------------------------------------------

  /** The fixed name the upload saves the sheet under and the search reads
      the date from. */
  const StoredFileName: string := "merchant_data.xlsx"

  /** `(\d{2})(\d{2})` matches at position `i`: four digits in a row. */
  predicate FourDigitsAt(s: string, i: int)
  {
    0 <= i && i + 4 <= |s| && forall k | i <= k < i + 4 :: IsAsciiDigit(s[k])
  }

  /** `re.search(r'(\d{2})(\d{2})', s)` from position `from`: the leftmost
      match, if any. */
  function FindFourDigits(s: string, from: nat): (r: Option<nat>)
    requires from <= |s|
    decreases |s| - from
    ensures r.Some? ==> from <= r.value && FourDigitsAt(s, r.value)
    ensures r.Some? ==> forall j | from <= j < r.value :: !FourDigitsAt(s, j)
    ensures r.None? ==> forall j | from <= j :: !FourDigitsAt(s, j)
  {
    if from + 4 > |s| then None
    else if FourDigitsAt(s, from) then Some(from)
    else FindFourDigits(s, from + 1)
  }

  /** The `data_date` computation of `get_merchants`. The pattern is applied
      to the fixed literal file name, which holds no digit, so the date is
      always empty, whether or not the file exists. */
  method DataDate(fileExists: bool) returns (dataDate: string)
    ensures dataDate == ""
  {
    dataDate := "";
    if fileExists {
      var filename := StoredFileName;
      var found := FindFourDigits(filename, 0);
      if found.Some? {
        var i := found.value;
        dataDate := filename[i..i + 2] + "月" + filename[i + 2..i + 4] + "日";
      }
      StoredFileNameHasNoMatch();
    }
  }

  /** No position of the stored file name starts four digits. */
  lemma StoredFileNameHasNoMatch()
    ensures forall i :: !FourDigitsAt(StoredFileName, i)
  {
    forall i | 0 <= i && i + 4 <= |StoredFileName|
      ensures !FourDigitsAt(StoredFileName, i)
    {
      assert !IsAsciiDigit(StoredFileName[i]);
    }
  }

  // ---------------------------------------------------------------------------
  // POST /api/upload/
  // ---------------------------------------------------------------------------

  /** A JSON reply with its HTTP status. */
  datatype JsonReply = JsonReply(status: int, message: string)

  const UploadedMessage: string := "文件上传成功，数据已更新"
  const UploadFailedPrefix: string := "上传失败: "

  /** The reply of `upload_file` once authenticated: `failure` is the text of
      whatever exception the save, read or insert raised (`str(e)`). Every
      failure is caught and answered with 500 and the prefixed message. */
  function UploadReply(failure: Option<string>): (r: JsonReply)
    ensures r.status == 500 <==> failure.Some?
    ensures failure.None? ==> r.status == 200 && r.message == UploadedMessage
    ensures failure.Some? ==>
      IsPrefix(UploadFailedPrefix, r.message) && r.message[|UploadFailedPrefix|..] == failure.value
  {
    match failure
    case None => JsonReply(200, UploadedMessage)
    case Some(e) => JsonReply(500, UploadFailedPrefix + e)
  }
}
