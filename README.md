# Merchant query system — a verified model of its core logic

The system lets staff look up merchants and institutions and see how many
valid transactions each merchant had, with a one-click view of the
"low-activity" merchants (fewer than 10 transactions). A React page sends a
search to a FastAPI backend, keeps the whole result set in component state,
filters it client-side and exports the visible rows to Excel. An admin can
upload a new spreadsheet, whose file name may carry the data date.

This project models, in Dafny:

- **The search page's state** (`SearchPage`, `search_page.dfy`). The class
  `Page` holds the component's state variables as fields. It has one method
  per handler: search, search box, filter toggle, page-size change, table
  change, tab switch and export. Each handler reads the values its closure
  captured and then sets the new ones. `PageState` and the `After...`
  functions give the same behaviour as values. Each method's contract ties
  the new state to the function of the old state. The lemmas state what the
  transitions guarantee. The remote fetch is not performed: its outcome is a
  parameter of the search method.
- **The main backend** (`MainBackend`, `main_backend.dfy`, for
  `backend/main.py`). It covers:
  - the merchant search: an OR of three exact matches and one name-substring
    match, inclusive transaction bounds, the total counted before paging,
    offset/limit paging, and the integer ceiling for `total_pages`;
  - the single-merchant lookup and its error status;
  - the upload: the file-name date parse, the column rename and required-column
    check, the HTTP status of each failure, and the stored data date;
  - `get_data_date` and its default fallback.
- **The alternative sqlite3 backend** (`SqliteBackend`, `sqlite_backend.dfy`,
  for `backend/app/main.py`). It covers:
  - the search, where each supplied parameter ANDs a substring clause on an
    id OR a name;
  - paging and `total_pages`;
  - a `data_date` that is always empty;
  - the upload's error reply.
- **The menu key** (`AppMenu`, `app_menu.dfy`, for `frontend/src/App.tsx`).
- **How the pieces fit** (`EndToEnd`, `end_to_end.dfy`):
  - what the page's request selects in each backend;
  - the 1000-row fetch cap;
  - that both backends compute the same page count;
  - that an exported sheet passes the upload's column check.

`common.dfy` holds the generic pieces: `Option`, order-preserving `Filter`,
`Count`, the LIMIT/OFFSET `Window`, string prefix/suffix/substring, decimal
digits, and the ceiling quotient. `merchants.dfy` holds the records both
sides exchange.

One might expect a new search to reset the filter, a tab switch to discard
the results and the filter, late answers from superseded searches to be
dropped, and the stored total to be recomputed for the current mode. The
code does none of these, and the model follows the code:

- A new search keeps the "fewer than 10" filter flag on.
- A tab switch clears only the visible rows and the search term. The fetched
  set, both totals, the pagination and the flag stay, so the next filter
  toggle shows the previous search's rows again.
- No guard discards the answer to an older search.
- `pagination.total` is written from the `filteredTotal` captured before the
  update, so it can disagree with the total the pagination control displays.
  The control reads `showLessThan10 ? filteredTotal : apiTotal` afresh on
  every render.
- In the main backend, every `HTTPException` raised inside the upload's
  `try` becomes a 500. This covers the non-`.xlsx` 400, the missing-columns
  400 and the bad-row 400. Only the non-admin 403 survives. Likewise, the
  lookup's 404 becomes a 500.
- The date check is per field: `未月活-0231.xlsx` yields `2月31日`.

## Model

| member | source | states |
|---|---|---|
| SearchPage.Page.constructor | frontend/src/components/SearchPage.tsx:59-71 | The initial state is empty: no rows, filter off, institution tab, page 1 of size 10, totals 0. It is consistent. |
| SearchPage.Page.HandleSearch | frontend/src/components/SearchPage.tsx:193-260 | A blank term makes no request, shows the warning and changes nothing. Otherwise it sends the request for the tab and term captured at call time. It ends in `AfterSearch` of the old state and shows the toast for the outcome. It keeps consistency. |
| SearchPage.Page.HandleSearchInput | frontend/src/components/SearchPage.tsx:263-265 | A search from page 1 with the current page size. |
| SearchPage.Page.HandleInputChange | frontend/src/components/SearchPage.tsx:364 | Typing changes the search term only. |
| SearchPage.Page.HandleTableChange | frontend/src/components/SearchPage.tsx:268-277 | The new state is `AfterTableChange` of the old one. It keeps consistency. |
| SearchPage.Page.HandlePageSizeChange | frontend/src/components/SearchPage.tsx:280-288 | The new state is `AfterPageSizeChange` of the old one. It does not depend on the `current` argument. |
| SearchPage.Page.HandleFilterChange | frontend/src/components/SearchPage.tsx:306-326 | The new state is `AfterFilterToggle` of the old one. The rows shown are the fetched set under the new flag. |
| SearchPage.Page.HandleTabChange | frontend/src/components/SearchPage.tsx:349-353 | The new state is `AfterTabChange` of the old one. It keeps consistency. |
| SearchPage.Page.HandleExport | frontend/src/components/SearchPage.tsx:290-297 | Gives one row per visible merchant, in order. Reading each row back gives that merchant. |
| SearchPage.TrimStart | frontend/src/components/SearchPage.tsx:194 | Drops only leading JavaScript white space, and all of it. |
| SearchPage.TrimEnd | frontend/src/components/SearchPage.tsx:194 | Drops only trailing JavaScript white space, and all of it. |
| SearchPage.BlankIffAllWhitespace | frontend/src/components/SearchPage.tsx:194-197 | A term is rejected exactly when every character of it is white space. This includes the empty term. |
| SearchPage.SearchRequest | frontend/src/components/SearchPage.tsx:203-223 | An institution search sends the term as both institution parameters. A merchant search sends it as both merchant parameters. The other two are absent, with no bounds, the given page and page size 1000. |
| SearchPage.ExportRows | frontend/src/components/SearchPage.tsx:291-297 | One row per merchant, in order, carrying its five fields. |
| SearchPage.ExportRoundTrip | frontend/src/components/SearchPage.tsx:291-297 | Reading the exported rows back yields exactly the visible merchants. |
| SearchPage.DisplayedTotalMatchesMode | frontend/src/components/SearchPage.tsx:419 | In every consistent state, the displayed total depends on the filter. With the filter on, it is the number of fetched rows below 10 transactions. With it off, it is the service's total. |
| SearchPage.SearchWithoutResults | frontend/src/components/SearchPage.tsx:193-260 | A blank term changes no state, whatever the fetch would answer. A failed fetch changes only the term and ends loading. It keeps the rows, the fetched set, both totals and the pagination. |
| SearchPage.SearchSuccess | frontend/src/components/SearchPage.tsx:228-248 | A successful search keeps the filter flag and stores the items and the service total. The rows are the items, filtered to under 10 transactions in order when the flag is on. `filteredTotal` is their count. It moves to page 1 with the requested size. The stored total with the filter on is the previous results' low-activity count. |
| SearchPage.FilterToggleRecomputes | frontend/src/components/SearchPage.tsx:306-326 | The toggle negates the flag and recomputes the rows from the fetched set, never from the visible rows. `filteredTotal` is the new row count. It moves to page 1 and keeps the page size. |
| SearchPage.FilterOnTotals | frontend/src/components/SearchPage.tsx:306-326 | After the filter is turned on, the displayed total counts the fetched rows below 10. The stored `pagination.total` is the size of the whole fetched set. |
| SearchPage.DoubleToggle | frontend/src/components/SearchPage.tsx:306-318 | Toggling twice restores the flag. From the filter off, it shows the whole fetched set again. Rows that showed the fetched set under the flag come back unchanged. From a consistent state, the displayed total comes back too. |
| SearchPage.PagingTouchesOnlyPagination | frontend/src/components/SearchPage.tsx:268-288 | The paging handlers change only the pagination. A page-size change moves to page 1 with the new size. A table change copies page and size only when both are non-zero numbers. Both store the displayed total. |
| SearchPage.TabSwitchKeepsPreviousSearch | frontend/src/components/SearchPage.tsx:349-353 | A tab switch sets the kind and empties the rows and the term. Everything else is kept. The displayed total is unchanged, and the next toggle shows the previous search's rows. |
| SearchPage.StoredTotalCanBeStale | frontend/src/components/SearchPage.tsx:321-325 | Example: one fetched row with 15 transactions and the filter turned on. The control displays 0, but the stored total is 1. |
| SearchPage.ThreeRowExample | frontend/src/components/SearchPage.tsx:228-248 | Example: rows with 5, 15 and 3 transactions and a total of 3. With the filter off, 3 rows are displayed. With it on, the first and third rows and a total of 2. |
| MainBackend.BuildConditions | backend/main.py:231-253 | The condition list is empty exactly when no id/name parameter is supplied, where empty strings count as not supplied. Otherwise their OR holds exactly when a supplied id/name matches: exact for three, substring for the merchant name. |
| MainBackend.BuildFilters | backend/main.py:255-266 | A record passes the filter chain exactly when it satisfies the query's meaning. That is: the OR group, when non-empty, and each supplied inclusive transaction bound. |
| MainBackend.GetMerchants | backend/main.py:212-317 | `total` counts every matching record regardless of the page. `items` is the LIMIT/OFFSET window at `(page-1)*page_size`. Page and size are echoed back. `total_pages` is the ceiling of total over size. The date is the fixed `4月27日`. |
| MainBackend.TotalPagesIsCeiling | backend/main.py:312 | `(total + page_size - 1) // page_size` is the ceiling of `total / page_size`. |
| MainBackend.FirstWithId | backend/main.py:323 | Gives no record exactly when no row has the id. Otherwise it gives the first row in scan order with that id. |
| MainBackend.GetMerchant | backend/main.py:319-331 | A found record is in the table and has the requested id. The error happens exactly when no row has that id, and its status is 500, not 404. |
| MainBackend.ParseTwoDigits | backend/main.py:361-362 | Reads a number exactly when both characters are ASCII digits. The number is below 100. |
| MainBackend.ParseTwoDigitsRoundTrip | backend/main.py:361-362 | Two-digit writing and reading are inverse, and reading is injective. |
| MainBackend.NamesDateIff | backend/main.py:348-364 | A name denotes month/day exactly when four things hold: it has the `未月活-` prefix and the `.xlsx` suffix, it is 13 characters long, its middle four characters read as that month and day, and both are in range. |
| MainBackend.ParseFileNameDate | backend/main.py:348-372 | A date comes out exactly for the names `未月活-MMDD.xlsx` with month 1..12 and day 1..31. It is `{month}月{day}日` without leading zeros. |
| MainBackend.RenameColumns | backend/main.py:386-389 | After the rename, `counts` is no longer a column name and `有效交易笔数` is one when `counts` was. The other names are kept. |
| MainBackend.MissingColumns | backend/main.py:392-394 | Lists exactly the required columns absent after the rename, in the fixed required order, each once. It is empty exactly when all five are present. |
| MainBackend.UploadStatus | backend/main.py:473-475 | A failed upload answers 403 exactly for a non-admin. Every other failure is 500, and never 400. |
| MainBackend.DataDateTable.UploadFile | backend/main.py:333-475 | Checks in order: non-admin gives 403, a non-`.xlsx` name, an unreadable sheet, missing columns (listed), a bad row. Otherwise it reports the row count, and the parsed date or `未更新`. Only a parsed date whose write succeeds changes the stored date. |
| MainBackend.DataDateTable.GetDataDate | backend/main.py:477-511 | Returns a present, non-empty stored date unchanged. Otherwise it stores and returns `4月27日`. On an error it returns `4月27日` and stores nothing. The answer is never empty. |
| SqliteBackend.BuildClauses | backend/app/main.py:203-217 | There is one clause per supplied parameter. A row satisfies all of them exactly when each supplied institution term occurs in the institution id or name, and each supplied merchant term occurs in the merchant id or name. |
| SqliteBackend.DuplicatedClauseIsRedundant | backend/app/main.py:206-217 | Sending the same term in both institution parameters, or in both merchant parameters, selects what sending it once does. |
| SqliteBackend.PageCount | backend/app/main.py:237 | `math.ceil(total / page_size)` is the ceiling quotient. |
| SqliteBackend.GetMerchants | backend/app/main.py:182-239 | `total` counts every matching row before LIMIT/OFFSET. `items` is the window at `(page-1)*page_size`. Page and size are echoed back. `total_pages` is the ceiling. `data_date` is empty. |
| SqliteBackend.FindFourDigits | backend/app/main.py:196 | Gives the leftmost position where four digits start, or none when no position does. |
| SqliteBackend.DataDate | backend/app/main.py:192-199 | The data date is always empty, whether or not the file exists. |
| SqliteBackend.StoredFileNameHasNoMatch | backend/app/main.py:194-196 | `merchant_data.xlsx` has no four digits in a row. |
| SqliteBackend.UploadReply | backend/app/main.py:159-164 | The status is 500 exactly on a failure, and the message is `上传失败: ` followed by the error text. Otherwise it is 200 with the success message. |
| AppMenu.SelectedKey | frontend/src/App.tsx:20-26 | Exactly `/faq` selects FAQ. Exactly the paths starting with `/admin` select admin. Every other path, `/` included, selects search. |
| AppMenu.SelectedKeyExamples | frontend/src/App.tsx:22-25 | `/`, `/faq/`, `/faq/x` and `/login` select search. `/admin/login` and `/adminX` select admin. |
| Common.Window | backend/main.py:273-274 | The LIMIT/OFFSET rows are the consecutive rows from the offset, at most `limit` of them. A negative offset (page 0 or below) is read as 0, as SQLite does. There are none past the end. |
| Common.Filter | frontend/src/components/SearchPage.tsx:232-234 | Keeps exactly the elements that satisfy the predicate, as a subsequence in their original order, and keeps distinct elements distinct. |
| Common.DecimalString | backend/main.py:364 | Renders a number as ASCII digits, starting with `0` only for zero. |
| Common.DecimalRoundTrip | backend/main.py:364 | Reading the rendered digits back gives the number. |
| Common.FilterLength | frontend/src/components/SearchPage.tsx:232-234 | The number of rows the filter keeps is the number that satisfy its predicate. |
| Common.CeilingQuotientZero | backend/main.py:312 | The page count is never negative, and it is zero exactly when there are no rows. |
| EndToEnd.MainInstitutionSearch | backend/main.py:234-242 | For a non-empty term, the page's institution search keeps in the main backend exactly the records whose institution id or name equals the term. |
| EndToEnd.MainMerchantSearch | backend/main.py:245-253 | For a non-empty term, the page's merchant search keeps in the main backend exactly the records whose merchant id equals the term or whose name contains it. |
| EndToEnd.SqliteSearch | backend/app/main.py:206-217 | In the sqlite3 backend, the same requests keep exactly the rows where the term occurs in either field of the chosen kind. |
| EndToEnd.MainSelectionWithinSqlite | backend/app/main.py:206-217 | For the page's requests, every record the main backend selects is also selected by the sqlite3 backend. |
| EndToEnd.EmptyQuerySelectsAll | backend/main.py:256-258 | A query with no parameters selects the whole table, in order, in both backends. |
| EndToEnd.FetchCap | frontend/src/components/SearchPage.tsx:223-225 | The 1000-row fetch returns every match exactly when there are at most 1000. Otherwise it returns the first 1000. |
| EndToEnd.PageCountsAgree | backend/app/main.py:237 | Both backends' page-count formulas give the same number, which is zero exactly when there are no rows. |
| EndToEnd.ExportedSheetHasRequiredColumns | frontend/src/components/SearchPage.tsx:291-297 | The exported sheet's column titles pass the upload's required-column check. |
| EndToEnd.DateCheckAcceptsFebruary31 | backend/main.py:360-364 | `未月活-0231.xlsx` denotes month 2, day 31, labelled `2月31日`. |

## Left out

- HTTP and browser plumbing is not modelled: axios, interceptors, the token in `localStorage`, the login redirect, FastAPI routing, CORS and the server. The page's fetch is a parameter, and the request it would send is a result.
- Authentication is not modelled: JWT, bcrypt, the user lookup and `handleLogin`. The admin flag is a parameter of the upload.
- pandas and XLSX I/O are not modelled. The upload takes what pandas read as input: the column names, the row count, and whether every row converted. The export is modelled as its row mapping. Writing rows to the table is not modelled.
- `handleUpload` and `fetchDataDate` on the page are not modelled. They are network calls followed by a re-search or a label update.
- The page's `loading` flag is modelled as a field, but the intermediate `true` while the fetch runs is not observable in a sequential model.
- Overlapping searches and React's render and batching order are not modelled. Each handler is one atomic step. The order in which the table control fires its two change callbacks is library behaviour and is not modelled.
- SQL `LIKE` is modelled as plain case-sensitive substring. SQLite's ASCII case folding and the `%`/`_` wildcards inside a user's term are not modelled.
- Row order is table order. There is no ORDER BY, and the database's scan order is not modelled.
- Database errors in the searches are not modelled. The only error path modelled for them is the lookup's 500.
- Transactions and commits are not modelled. In `backend/main.py` the only commit is in the date branch of the upload. `check_db_connection` and logging are not modelled either.
- `MainBackend.GetMerchants` and `SqliteBackend.GetMerchants`: `page_size` must be positive. The source raises a division error for 0, and a negative LIMIT in SQLite means "no limit".
- `MainBackend.ParseTwoDigits`: reads only two ASCII digits. Python's `int()` also accepts a sign, surrounding white space and non-ASCII decimal digits (such as full-width `未月活-０４２７.xlsx`). Those forms yield no date here.
- `SqliteBackend.FindFourDigits`: `\d` is modelled as ASCII digits only. It is applied only to a fixed ASCII name, where this makes no difference.
- `SqliteBackend.PageCount`: `math.ceil` over a float is modelled as the exact integer ceiling. The two differ only for totals beyond 2^53.
- The menu's navigation calls and the FAQ, login and admin pages hold no logic of their own and are not modelled.
