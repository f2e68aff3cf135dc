/** What the search page's request selects in each backend, and how the
    pieces fit together: the exact-match backend and the substring backend
    read the same request differently, an empty query selects everything,
    the 1000-row fetch is the whole result only up to 1000 matches, and a
    sheet exported from the page carries every column the upload demands. */
module EndToEnd {
  import opened Common
  import opened Merchants
  import MainBackend
  import SqliteBackend
  import SearchPage

  /** An institution search in the main backend keeps exactly the records
      whose institution id or institution name equals the term. */
  lemma MainInstitutionSearch(m: Merchant, value: string, page: int)
    requires value != ""
    ensures MainBackend.RecordMatches(m, SearchPage.SearchRequest(SearchPage.InstitutionSearch, value, page))
      <==> m.institutionId == value || m.institution == value
  {
  }

  /** A merchant search in the main backend keeps exactly the records whose
      merchant id equals the term or whose merchant name contains it. */
  lemma MainMerchantSearch(m: Merchant, value: string, page: int)
    requires value != ""
    ensures MainBackend.RecordMatches(m, SearchPage.SearchRequest(SearchPage.MerchantSearch, value, page))
      <==> m.merchantId == value || Contains(m.merchantName, value)
  {
  }

  /** In the sqlite3 backend the same request sends the term twice, and the
      two clauses are the same: the row matches when the term occurs in
      either field of the chosen kind. */
  lemma SqliteSearch(m: Merchant, value: string, page: int)
    requires value != ""
    ensures SqliteBackend.RowMatches(m, SearchPage.SearchRequest(SearchPage.InstitutionSearch, value, page))
      <==> Contains(m.institutionId, value) || Contains(m.institution, value)
    ensures SqliteBackend.RowMatches(m, SearchPage.SearchRequest(SearchPage.MerchantSearch, value, page))
      <==> Contains(m.merchantId, value) || Contains(m.merchantName, value)
  {
  }

  /** Everything the main backend finds for a request, the sqlite3 backend
      finds too: equality implies occurrence. */
  lemma MainSelectionWithinSqlite(table: seq<Merchant>, kind: SearchPage.SearchKind, value: string, page: int)
    requires value != ""
    ensures var q := SearchPage.SearchRequest(kind, value, page);
      forall i | 0 <= i < |MainBackend.Selected(table, q)| ::
        MainBackend.Selected(table, q)[i] in SqliteBackend.Selected(table, q)
  {
    var q := SearchPage.SearchRequest(kind, value, page);
    var main := MainBackend.Selected(table, q);
    forall i | 0 <= i < |main| ensures main[i] in SqliteBackend.Selected(table, q) {
      var m := main[i];
      assert OccursAt(value, value, 0);
      if m.institutionId == value { assert OccursAt(m.institutionId, value, 0); }
      if m.institution == value { assert OccursAt(m.institution, value, 0); }
      if m.merchantId == value { assert OccursAt(m.merchantId, value, 0); }
      assert SqliteBackend.RowMatches(m, q);
      var k :| 0 <= k < |table| && table[k] == m;
      assert table[k] in SqliteBackend.Selected(table, q);
    }
  }

  /** A query without any parameter but the page selects the whole table,
      in table order, in both backends. */
  lemma EmptyQuerySelectsAll(table: seq<Merchant>, page: int, pageSize: int)
    ensures var q := QueryParams(None, None, None, None, None, None, page, pageSize);
      MainBackend.Selected(table, q) == table && SqliteBackend.Selected(table, q) == table
  {
    var q := QueryParams(None, None, None, None, None, None, page, pageSize);
    FilterKeepsAllPassing(table, m => MainBackend.RecordMatches(m, q));
    FilterKeepsAllPassing(table, m => SqliteBackend.RowMatches(m, q));
  }

  /** The page fetches page 1 of at most 1000 rows and filters and counts
      those only: the fetched rows are all matches exactly when there are at
      most 1000 of them, and otherwise the first 1000. */
  lemma FetchCap(selected: seq<Merchant>)
    ensures Window(selected, 0, SearchPage.FetchPageSize) == selected <==> |selected| <= SearchPage.FetchPageSize
    ensures |selected| > SearchPage.FetchPageSize ==>
      Window(selected, 0, SearchPage.FetchPageSize) == selected[..SearchPage.FetchPageSize]
  {
    var w := Window(selected, 0, SearchPage.FetchPageSize);
    if |selected| <= SearchPage.FetchPageSize {
      if selected != [] {
        assert |w| == |selected|;
      }
    } else {
      assert |w| == SearchPage.FetchPageSize;
    }
  }

  /** Both backends report the same page count for the same total: the
      integer formula of the main backend and the ceiling of the sqlite3
      backend are the one ceiling quotient, zero exactly for no rows. */
  lemma PageCountsAgree(total: nat, pageSize: int)
    requires pageSize > 0
    ensures (total + pageSize - 1) / pageSize == SqliteBackend.PageCount(total, pageSize)
    ensures SqliteBackend.PageCount(total, pageSize) == 0 <==> total == 0
  {
    MainBackend.TotalPagesIsCeiling(total, pageSize);
    CeilingQuotientUnique((total + pageSize - 1) / pageSize, SqliteBackend.PageCount(total, pageSize), total, pageSize);
    CeilingQuotientZero(SqliteBackend.PageCount(total, pageSize), total, pageSize);
  }

  /** The sheet the page exports has every column the main backend's upload
      requires, so it is never rejected for missing columns. */
  lemma ExportedSheetHasRequiredColumns()
    ensures MainBackend.MissingColumns(SearchPage.ExportColumns) == []
  {
    var renamed := MainBackend.RenameColumns(SearchPage.ExportColumns);
    assert SearchPage.ExportColumns[0] in renamed;
    assert SearchPage.ExportColumns[1] in renamed;
    assert SearchPage.ExportColumns[2] in renamed;
    assert SearchPage.ExportColumns[3] in renamed;
    assert SearchPage.ExportColumns[4] in renamed;
  }

  /** The upload's range check is per field: `未月活-0231.xlsx` names the
      date 2月31日, a day February does not have. */
  lemma DateCheckAcceptsFebruary31()
    ensures MainBackend.NamesDate("未月活-0231.xlsx", 2, 31)
    ensures MainBackend.DateLabel(2, 31) == "2月31日"
  {
    assert MainBackend.TwoDigits(2) == "02";
    assert MainBackend.TwoDigits(31) == "31";
  }
}
