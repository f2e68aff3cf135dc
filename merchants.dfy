/** The records exchanged between the search page and the merchant query
    service: one merchant row, the query string of `GET /api/merchants/`, and
    the paginated reply both backends send back. */
module Merchants {
  import opened Common

  /** One row of the `merchants` table (and of the `Merchant` interface the
      frontend declares). */
  datatype Merchant = Merchant(
    merchantId: string,
    merchantName: string,
    institution: string,
    institutionId: string,
    transactionCount: int)

  /** The query parameters of `GET /api/merchants/`. A parameter the client
      leaves out (or sends as `null`, which axios drops) is `None`. The
      sqlite3 backend declares no `min_transactions`/`max_transactions` and
      ignores them. */
  datatype QueryParams = QueryParams(
    institutionId: Option<string>,
    institution: Option<string>,
    merchantId: Option<string>,
    merchantName: Option<string>,
    minTransactions: Option<int>,
    maxTransactions: Option<int>,
    page: int,
    pageSize: int)

  /** The JSON body of a successful `GET /api/merchants/`. */
  datatype PaginatedResponse = PaginatedResponse(
    items: seq<Merchant>,
    total: int,
    page: int,
    pageSize: int,
    totalPages: int,
    dataDate: string)

  /** Python truthiness of an optional string parameter: `if institution_id:`
      skips both a missing parameter and the empty string. */
  predicate Supplied(p: Option<string>)
  {
    p.Some? && p.value != ""
  }
}
