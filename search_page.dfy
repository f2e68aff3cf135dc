/** The search page (`frontend/src/components/SearchPage.tsx`): the component
    state that reconciles one remote search with the client-side
    "fewer than 10 transactions" filter and the pagination control.

    `Page` holds the component's state variables as fields; each handler is a
    method that reads the values its render closure captured and then calls
    the setters, exactly as the component does. The remote fetch is not
    performed: its outcome is a parameter. `PageState` is the same state as a
    value, and the `After...` functions are the handlers as state transitions;
    each method's contract ties the new state to the function of the old one,
    and the lemmas below state what the transitions guarantee. */
module SearchPage {
  import opened Common
  import opened Merchants

  /** The tab: `'institution' | 'merchant'`. */
  datatype SearchKind = InstitutionSearch | MerchantSearch

  /** The `pagination` state variable. */
  datatype Pagination = Pagination(current: int, pageSize: int, total: int)

  /** What the remote query answered: its items and reported total, or an error. */
  datatype FetchOutcome = Fetched(items: seq<Merchant>, total: int) | FetchFailed

  /** The toast a search shows. */
  datatype Notice =
    | EmptyTermWarning        // 请输入搜索内容
    | NothingFound(kind: SearchKind)
    | FoundRecords(total: int)
    | SearchFailed

  /** The page size of the request that fetches "all" matches at once. */
  const FetchPageSize: int := 1000

  // ---------------------------------------------------------------------------
  // Pure helpers used inside the handlers
  // ---------------------------------------------------------------------------

  /** The filter predicate `m => m.transaction_count < 10`. */
  predicate BelowTen(m: Merchant)
  {
    m.transactionCount < 10
  }

  /** `items.filter(m => m.transaction_count < 10)`. */
  function LowActivity(items: seq<Merchant>): seq<Merchant>
  {
    Filter(items, BelowTen)
  }

  /** The rows shown for a fetched set under the given filter flag. */
  function Visible(all: seq<Merchant>, filterOn: bool): seq<Merchant>
  {
    if filterOn then LowActivity(all) else all
  }

  /** The characters JavaScript's `String.prototype.trim` removes: white
      space (including U+FEFF and the Unicode space separators) and line
      terminators. */
  predicate IsJsWhitespace(c: char)
  {
    || c == ' ' || c == '\t' || c == '\n' || c == '\r'
    || c == '\U{000B}' || c == '\U{000C}' || c == '\U{00A0}' || c == '\U{FEFF}'
    || c == '\U{1680}' || ('\U{2000}' <= c <= '\U{200A}')
    || c == '\U{2028}' || c == '\U{2029}' || c == '\U{202F}' || c == '\U{205F}' || c == '\U{3000}'
  }

  /** `s` without its leading white space: a suffix of `s` that starts with a
      non-white character, all it dropped being white. */
  function TrimStart(s: string): (r: string)
    ensures |r| <= |s| && r == s[|s| - |r|..]
    ensures forall i | 0 <= i < |s| - |r| :: IsJsWhitespace(s[i])
    ensures r != [] ==> !IsJsWhitespace(r[0])
  {
    if s != [] && IsJsWhitespace(s[0]) then TrimStart(s[1..]) else s
  }

  /** `s` without its trailing white space: a prefix of `s` that ends with a
      non-white character, all it dropped being white. */
  function TrimEnd(s: string): (r: string)
    ensures |r| <= |s| && r == s[..|r|]
    ensures forall i | |r| <= i < |s| :: IsJsWhitespace(s[i])
    ensures r != [] ==> !IsJsWhitespace(r[|r| - 1])
  {
    if s != [] && IsJsWhitespace(s[|s| - 1]) then TrimEnd(s[..|s| - 1]) else s
  }

  /** `value.trim()`. */
  function Trim(s: string): string
  {
    TrimEnd(TrimStart(s))
  }

  /** `!value.trim()`: the term is rejected before any request. */
  predicate IsBlank(value: string)
  {
    Trim(value) == ""
  }

  /** A term is blank exactly when every character of it is white space. */
  lemma BlankIffAllWhitespace(value: string)
    ensures IsBlank(value) <==> forall i | 0 <= i < |value| :: IsJsWhitespace(value[i])
  {
    var t := TrimStart(value);
    if t != [] {
      assert !IsJsWhitespace(t[0]);
      assert TrimEnd(t) != [];
      assert !IsJsWhitespace(value[|value| - |t|]);
    }
  }

  /** The query parameters `handleSearch` sends for a term: both fields of
      the chosen kind carry the (untrimmed) term, the other two are `null`
      (dropped by axios), and the page size is the fixed large cap. */
  function SearchRequest(kind: SearchKind, value: string, page: int): (q: QueryParams)
    ensures q.pageSize == FetchPageSize && q.page == page
    ensures q.minTransactions.None? && q.maxTransactions.None?
    ensures kind == InstitutionSearch ==>
      q.institutionId == Some(value) && q.institution == Some(value) && q.merchantId.None? && q.merchantName.None?
    ensures kind == MerchantSearch ==>
      q.merchantId == Some(value) && q.merchantName == Some(value) && q.institutionId.None? && q.institution.None?
  {
    match kind
    case InstitutionSearch => QueryParams(Some(value), Some(value), None, None, None, None, page, FetchPageSize)
    case MerchantSearch => QueryParams(None, None, Some(value), Some(value), None, None, page, FetchPageSize)
  }

  /** One exported spreadsheet row, keyed by the sheet's column titles. */
  datatype ExportRow = ExportRow(
    merchantNo: string,           // 商户号
    merchantName: string,         // 商户名称
    institution: string,          // 机构
    institutionNo: string,        // 机构号
    validTransactions: int)       // 有效交易笔数

  /** The column titles of the exported sheet, in row-key order. */
  const ExportColumns: seq<string> := ["商户号", "商户名称", "机构", "机构号", "有效交易笔数"]

  function RowOf(m: Merchant): ExportRow
  {
    ExportRow(m.merchantId, m.merchantName, m.institution, m.institutionId, m.transactionCount)
  }

  /** The `merchants.map(...)` of `handleExport`: one row per visible
      merchant, in order. */
  function ExportRows(ms: seq<Merchant>): (rows: seq<ExportRow>)
    ensures |rows| == |ms|
    ensures forall i | 0 <= i < |ms| :: rows[i] == RowOf(ms[i])
  {
    if ms == [] then [] else [RowOf(ms[0])] + ExportRows(ms[1..])
  }

  // ---------------------------------------------------------------------------
  // The state as a value, and the handlers as transitions
  // ---------------------------------------------------------------------------

  datatype PageState = PageState(
    merchants: seq<Merchant>,
    loading: bool,
    showLessThan10: bool,
    searchType: SearchKind,
    searchValue: string,
    pagination: Pagination,
    filteredTotal: int,
    apiTotal: int,
    allMerchants: seq<Merchant>)

  /** The state `useState` starts from. */
  const Initial: PageState :=
    PageState([], false, false, InstitutionSearch, "", Pagination(1, 10, 0), 0, 0, [])

  /** The `total` handed to the pagination control on each render. */
  function DisplayedTotal(s: PageState): int
  {
    if s.showLessThan10 then s.filteredTotal else s.apiTotal
  }

  /** `handleSearch(value, page, pageSize)` once the fetch has answered. */
  function AfterSearch(s: PageState, value: string, pageSize: int, fetch: FetchOutcome): PageState
  {
    if IsBlank(value) then s
    else match fetch
      case FetchFailed => s.(searchValue := value, loading := false)
      case Fetched(items, total) =>
        var shown := Visible(items, s.showLessThan10);
        s.(searchValue := value, loading := false,
           allMerchants := items, merchants := shown, filteredTotal := |shown|, apiTotal := total,
           pagination := Pagination(1, pageSize, if s.showLessThan10 then s.filteredTotal else total))
  }

  /** The toast `handleSearch` shows. */
  function SearchNotice(kind: SearchKind, value: string, fetch: FetchOutcome): Notice
  {
    if IsBlank(value) then EmptyTermWarning
    else match fetch
      case FetchFailed => SearchFailed
      case Fetched(items, total) => if |items| == 0 then NothingFound(kind) else FoundRecords(total)
  }

  /** `handleFilterChange`. */
  function AfterFilterToggle(s: PageState): PageState
  {
    var on := !s.showLessThan10;
    var shown := Visible(s.allMerchants, on);
    s.(showLessThan10 := on, merchants := shown, filteredTotal := |shown|,
       pagination := s.pagination.(current := 1, total := if on then s.filteredTotal else s.apiTotal))
  }

  /** `handlePageSizeChange(current, size)`; the `current` argument is unused. */
  function AfterPageSizeChange(s: PageState, size: int): PageState
  {
    s.(pagination := s.pagination.(current := 1, pageSize := size, total := DisplayedTotal(s)))
  }

  /** JavaScript truthiness of an optional number. */
  predicate Truthy(n: Option<int>)
  {
    n.Some? && n.value != 0
  }

  /** `handleTableChange(pagination)`: copies `current` and `pageSize` only
      when both are present and non-zero. */
  function AfterTableChange(s: PageState, current: Option<int>, pageSize: Option<int>): PageState
  {
    if Truthy(current) && Truthy(pageSize)
    then s.(pagination := Pagination(current.value, pageSize.value, DisplayedTotal(s)))
    else s
  }

  /** The tab `onChange`: sets the kind, empties the visible rows, clears the term. */
  function AfterTabChange(s: PageState, key: SearchKind): PageState
  {
    s.(searchType := key, merchants := [], searchValue := "")
  }

  /** What every reachable state satisfies: `filteredTotal` is the size of
      the fetched set under the current filter, and the visible rows are that
      set (or empty, after a tab switch). */
  predicate Consistent(s: PageState)
  {
    && s.filteredTotal == |Visible(s.allMerchants, s.showLessThan10)|
    && (s.merchants == Visible(s.allMerchants, s.showLessThan10) || s.merchants == [])
  }

  // ---------------------------------------------------------------------------
  // What the transitions guarantee
  // ---------------------------------------------------------------------------

  /** The total the control shows always belongs to the current mode: the
      number of fetched rows below 10 transactions with the filter on, the
      service's total with it off. */
  lemma DisplayedTotalMatchesMode(s: PageState)
    requires Consistent(s)
    ensures s.showLessThan10 ==> DisplayedTotal(s) == Count(s.allMerchants, BelowTen)
    ensures !s.showLessThan10 ==> DisplayedTotal(s) == s.apiTotal
  {
    FilterLength(s.allMerchants, BelowTen);
  }

  /** A blank term changes nothing, whatever the fetch would have answered;
      a failed fetch changes only the term (already set) and ends loading,
      keeping every result and the pagination. */
  lemma SearchWithoutResults(s: PageState, value: string, pageSize: int, fetch: FetchOutcome)
    ensures IsBlank(value) ==> AfterSearch(s, value, pageSize, fetch) == s
    ensures !IsBlank(value) ==>
      AfterSearch(s, value, pageSize, FetchFailed) == s.(searchValue := value, loading := false)
  {
  }

  /** A successful search keeps the filter flag, stores the fetched set and
      the service total, shows the fetched set filtered (in order) when the
      flag is on, and goes back to page 1 with the requested page size. The
      displayed total then belongs to the new results, while the stored
      `pagination.total` with the filter on is the low-activity count of
      the PREVIOUS results. */
  lemma SearchSuccess(s: PageState, value: string, pageSize: int, items: seq<Merchant>, total: int)
    requires Consistent(s) && !IsBlank(value)
    ensures var r := AfterSearch(s, value, pageSize, Fetched(items, total));
      && r.showLessThan10 == s.showLessThan10
      && r.allMerchants == items && r.apiTotal == total
      && r.merchants == (if s.showLessThan10 then LowActivity(items) else items)
      && r.filteredTotal == |r.merchants|
      && r.pagination.current == 1 && r.pagination.pageSize == pageSize
      && DisplayedTotal(r) == (if s.showLessThan10 then Count(items, BelowTen) else total)
      && r.pagination.total == (if s.showLessThan10 then Count(s.allMerchants, BelowTen) else total)
      && Consistent(r)
  {
    FilterLength(items, BelowTen);
    FilterLength(s.allMerchants, BelowTen);
  }

  /** Toggling the filter recomputes the rows from the whole fetched set,
      never from the rows currently shown, goes back to page 1 and keeps the
      page size. */
  lemma FilterToggleRecomputes(s: PageState)
    ensures var r := AfterFilterToggle(s);
      && r.showLessThan10 == !s.showLessThan10
      && r.merchants == Visible(s.allMerchants, r.showLessThan10)
      && r.filteredTotal == |r.merchants|
      && r.pagination.current == 1 && r.pagination.pageSize == s.pagination.pageSize
      && r.allMerchants == s.allMerchants && r.apiTotal == s.apiTotal
      && Consistent(r)
  {
  }

  /** Turning the filter on displays the number of fetched rows below 10
      transactions, but stores in `pagination.total` the pre-toggle
      `filteredTotal`, which is the size of the whole fetched set. */
  lemma FilterOnTotals(s: PageState)
    requires Consistent(s) && !s.showLessThan10
    ensures DisplayedTotal(AfterFilterToggle(s)) == Count(s.allMerchants, BelowTen)
    ensures AfterFilterToggle(s).pagination.total == |s.allMerchants|
  {
    FilterLength(s.allMerchants, BelowTen);
  }

  /** Toggling twice restores the flag and shows the fetched set under it;
      starting with the filter off, the rows are the whole fetched set again.
      Rows that showed the fetched set under the flag are restored, and from
      a consistent state so is the displayed total. */
  lemma DoubleToggle(s: PageState)
    ensures var r := AfterFilterToggle(AfterFilterToggle(s));
      && r.showLessThan10 == s.showLessThan10
      && r.merchants == Visible(s.allMerchants, s.showLessThan10)
      && (!s.showLessThan10 ==> r.merchants == s.allMerchants)
      && (s.merchants == Visible(s.allMerchants, s.showLessThan10) ==> r.merchants == s.merchants)
      && (Consistent(s) ==> DisplayedTotal(r) == DisplayedTotal(s))
  {
  }

  /** The paging handlers change the pagination only, go to page 1 on a page
      size change, copy `current` and `pageSize` only when both are given,
      and store the total the control displays. */
  lemma PagingTouchesOnlyPagination(s: PageState, size: int, current: Option<int>, pageSize: Option<int>)
    ensures var r := AfterPageSizeChange(s, size);
      && r == s.(pagination := r.pagination)
      && r.pagination == Pagination(1, size, DisplayedTotal(s))
    ensures var r := AfterTableChange(s, current, pageSize);
      && r == s.(pagination := r.pagination)
      && (Truthy(current) && Truthy(pageSize) ==>
            r.pagination == Pagination(current.value, pageSize.value, DisplayedTotal(s)))
      && (!(Truthy(current) && Truthy(pageSize)) ==> r == s)
  {
  }

  /** A tab switch empties the rows and the term but keeps the fetched set,
      both totals, the pagination and the filter flag; so the displayed total
      is unchanged and the next filter toggle shows the previous search's
      rows again. */
  lemma TabSwitchKeepsPreviousSearch(s: PageState, key: SearchKind)
    ensures var r := AfterTabChange(s, key);
      && r.searchType == key && r.merchants == [] && r.searchValue == ""
      && r.allMerchants == s.allMerchants && r.apiTotal == s.apiTotal
      && r.filteredTotal == s.filteredTotal && r.pagination == s.pagination
      && r.showLessThan10 == s.showLessThan10
      && DisplayedTotal(r) == DisplayedTotal(s)
      && AfterFilterToggle(r).merchants == Visible(s.allMerchants, !s.showLessThan10)
  {
  }

  /** The stored `pagination.total` can disagree with the displayed total:
      one fetched row with 15 transactions, filter turned on. */
  lemma StoredTotalCanBeStale()
    ensures var m := Merchant("1", "a", "b", "2", 15);
      var s := Initial.(merchants := [m], allMerchants := [m], filteredTotal := 1, apiTotal := 1);
      && Consistent(s)
      && DisplayedTotal(AfterFilterToggle(s)) == 0
      && AfterFilterToggle(s).pagination.total == 1
  {
    var m := Merchant("1", "a", "b", "2", 15);
    assert LowActivity([m]) == [];
  }

  /** Rows with 5, 15 and 3 transactions and a service total of 3: filter
      off shows 3; filter on shows the first and the third row and 2. */
  lemma ThreeRowExample(value: string)
    requires !IsBlank(value)
    ensures var a, b, c := Merchant("1", "", "", "", 5), Merchant("2", "", "", "", 15), Merchant("3", "", "", "", 3);
      var s := AfterSearch(Initial, value, 10, Fetched([a, b, c], 3));
      && DisplayedTotal(s) == 3 && s.merchants == [a, b, c]
      && AfterFilterToggle(s).merchants == [a, c]
      && DisplayedTotal(AfterFilterToggle(s)) == 2
  {
    var a, b, c := Merchant("1", "", "", "", 5), Merchant("2", "", "", "", 15), Merchant("3", "", "", "", 3);
    assert [a, b, c][1..] == [b, c];
    assert [b, c][1..] == [c];
    assert [c][1..] == [];
    assert LowActivity([c]) == [c] + LowActivity([]);
    assert LowActivity([b, c]) == LowActivity([c]);
    assert LowActivity([a, b, c]) == [a] + LowActivity([b, c]);
  }

  /** Reading an exported row back gives the merchant it came from. */
  function MerchantOfRow(row: ExportRow): Merchant
  {
    Merchant(row.merchantNo, row.merchantName, row.institution, row.institutionNo, row.validTransactions)
  }

  /** The export covers every visible row, in order, each with all five
      fields: reading the rows back yields exactly the visible merchants. */
  lemma ExportRoundTrip(ms: seq<Merchant>)
    ensures |ExportRows(ms)| == |ms|
    ensures forall i | 0 <= i < |ms| :: MerchantOfRow(ExportRows(ms)[i]) == ms[i]
  {
  }

  // ---------------------------------------------------------------------------
  // The component
  // ---------------------------------------------------------------------------

  class Page {
    var merchants: seq<Merchant>
    var loading: bool
    var showLessThan10: bool
    var searchType: SearchKind
    var searchValue: string
    var pagination: Pagination
    var filteredTotal: int
    var apiTotal: int
    var allMerchants: seq<Merchant>

    function State(): PageState
      reads this
    {
      PageState(merchants, loading, showLessThan10, searchType, searchValue,
                pagination, filteredTotal, apiTotal, allMerchants)
    }

    ghost predicate Valid()
      reads this
    {
      Consistent(State())
    }

    constructor ()
      ensures State() == Initial && Valid()
    {
      merchants := [];
      loading := false;
      showLessThan10 := false;
      searchType := InstitutionSearch;
      searchValue := "";
      pagination := Pagination(1, 10, 0);
      filteredTotal := 0;
      apiTotal := 0;
      allMerchants := [];
    }

    /** `handleSearch(value, page, pageSize)`. `fetch` is what the remote
        query answered for `request`; no request is made for a blank term. */
    method HandleSearch(value: string, page: int, pageSize: int, fetch: FetchOutcome)
      returns (request: Option<QueryParams>, notice: Notice)
      modifies this
      ensures State() == AfterSearch(old(State()), value, pageSize, fetch)
      ensures request == if IsBlank(value) then None else Some(SearchRequest(old(searchType), value, page))
      ensures notice == SearchNotice(old(searchType), value, fetch)
      ensures old(Valid()) ==> Valid()
    {
      if Trim(value) == "" {
        return None, EmptyTermWarning;
      }
      // The values the handler's closure captured.
      var filterOn, prevFilteredTotal, kind := showLessThan10, filteredTotal, searchType;

      searchValue := value;
      loading := true;
      request := Some(SearchRequest(kind, value, page));
      match fetch {
        case FetchFailed =>
          notice := SearchFailed;
        case Fetched(items, total) =>
          StoreResults(items, total, pageSize, filterOn, prevFilteredTotal);
          notice := if |items| == 0 then NothingFound(kind) else FoundRecords(total);
      }
      loading := false;
    }

    /** The setter calls of a successful `handleSearch`, given the filter
        flag and `filteredTotal` its closure captured. */
    method StoreResults(items: seq<Merchant>, total: int, pageSize: int, filterOn: bool, prevFilteredTotal: int)
      modifies this
      ensures State() == old(State()).(
        allMerchants := items, merchants := Visible(items, filterOn),
        filteredTotal := |Visible(items, filterOn)|, apiTotal := total,
        pagination := Pagination(1, pageSize, if filterOn then prevFilteredTotal else total))
    {
      allMerchants := items;
      if filterOn {
        var filtered := LowActivity(items);
        merchants := filtered;
        filteredTotal := |filtered|;
      } else {
        merchants := items;
        filteredTotal := |items|;
      }
      apiTotal := total;
      pagination := Pagination(1, pageSize, if filterOn then prevFilteredTotal else total);
    }

    /** `handleSearchInput(value)`: a search from page 1 with the current page size. */
    method HandleSearchInput(value: string, fetch: FetchOutcome)
      returns (request: Option<QueryParams>, notice: Notice)
      modifies this
      ensures State() == AfterSearch(old(State()), value, old(pagination).pageSize, fetch)
      ensures request == if IsBlank(value) then None else Some(SearchRequest(old(searchType), value, 1))
      ensures notice == SearchNotice(old(searchType), value, fetch)
      ensures old(Valid()) ==> Valid()
    {
      request, notice := HandleSearch(value, 1, pagination.pageSize, fetch);
    }

    /** The search box's `onChange`: only the term changes. */
    method HandleInputChange(text: string)
      modifies this
      ensures State() == old(State()).(searchValue := text)
      ensures old(Valid()) ==> Valid()
    {
      searchValue := text;
    }

    /** `handleTableChange(pagination)`. */
    method HandleTableChange(current: Option<int>, pageSize: Option<int>)
      modifies this
      ensures State() == AfterTableChange(old(State()), current, pageSize)
      ensures old(Valid()) ==> Valid()
    {
      if Truthy(current) && Truthy(pageSize) {
        pagination := Pagination(current.value, pageSize.value,
                                 if showLessThan10 then filteredTotal else apiTotal);
      }
    }

    /** `handlePageSizeChange(current, size)`: the result does not depend on
        `current`. */
    method HandlePageSizeChange(current: int, size: int)
      modifies this
      ensures State() == AfterPageSizeChange(old(State()), size)
      ensures old(Valid()) ==> Valid()
    {
      pagination := pagination.(current := 1, pageSize := size,
                                total := if showLessThan10 then filteredTotal else apiTotal);
    }

    /** `handleFilterChange`. */
    method HandleFilterChange()
      modifies this
      ensures State() == AfterFilterToggle(old(State()))
      ensures merchants == Visible(allMerchants, showLessThan10)
      ensures old(Valid()) ==> Valid()
    {
      // The values the handler's closure captured.
      var prevFilteredTotal, prevApiTotal := filteredTotal, apiTotal;
      var on := !showLessThan10;
      showLessThan10 := on;
      if on {
        var filtered := LowActivity(allMerchants);
        merchants := filtered;
        filteredTotal := |filtered|;
      } else {
        merchants := allMerchants;
        filteredTotal := |allMerchants|;
      }
      pagination := pagination.(current := 1, total := if on then prevFilteredTotal else prevApiTotal);
    }

    /** The tab's `onChange`. */
    method HandleTabChange(key: SearchKind)
      modifies this
      ensures State() == AfterTabChange(old(State()), key)
      ensures old(Valid()) ==> Valid()
    {
      searchType := key;
      merchants := [];
      searchValue := "";
    }

    /** `handleExport`: the rows written to the sheet, one per visible
        merchant (all of them, not just the current page). */
    method HandleExport() returns (rows: seq<ExportRow>)
      ensures |rows| == |merchants|
      ensures forall i | 0 <= i < |rows| :: MerchantOfRow(rows[i]) == merchants[i]
    {
      rows := ExportRows(merchants);
    }
  }
}
