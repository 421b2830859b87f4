/** The uniform JSON envelope of `src/lib/api-response.ts` and the HTTP reply
    that carries it. */
module ApiResponse {
  import opened Wrappers

  /** Page sizes and page numbers, which the handlers read with `parseInt`. */
  type Positive = x: int | x >= 1 witness 1

  datatype Pagination = Pagination(total: nat, page: int, limit: int, pages: nat)

  /** The `ApiResponse` shape: absent optional fields are `None`. Only the paginated
      form carries `pagination`. */
  datatype Envelope<T> = Envelope(
    success: bool,
    data: Option<T>,
    error: Option<string>,
    message: Option<string>,
    statusCode: int,
    pagination: Option<Pagination>)

  /** An HTTP response: the status line and the JSON body. */
  datatype Reply<T> = Reply(status: int, body: Envelope<T>)

  const DefaultMessage: string := "Success"
  const DefaultSuccessCode: int := 200
  const DefaultErrorCode: int := 400

  /** `successResponse`; an omitted message or status code takes its default. */
  function SuccessResponse<T>(data: T, message: Option<string>, statusCode: Option<int>): (r: Envelope<T>)
    ensures r.success && r.data == Some(data) && r.error.None? && r.pagination.None?
    ensures message.None? ==> r.message == Some("Success")
    ensures statusCode.None? ==> r.statusCode == 200
    ensures message.Some? ==> r.message == message
    ensures statusCode.Some? ==> r.statusCode == statusCode.value
  {
    Envelope(true, Some(data), None, Some(message.GetOr(DefaultMessage)), statusCode.GetOr(DefaultSuccessCode), None)
  }

  /** `errorResponse`: never successful, never carries data. */
  function ErrorResponse<T>(error: string, statusCode: Option<int>): (r: Envelope<T>)
    ensures !r.success && r.data.None? && r.message.None? && r.pagination.None?
    ensures r.error == Some(error)
    ensures r.statusCode == if statusCode.Some? then statusCode.value else 400
  {
    Envelope(false, None, Some(error), None, statusCode.GetOr(DefaultErrorCode), None)
  }

  /** `Math.ceil(total / limit)` for a positive limit. */
  function Pages(total: nat, limit: Positive): (pages: nat)
    ensures total == 0 <==> pages == 0
    ensures total > 0 ==> (pages - 1) * limit < total <= pages * limit
  {
    var q := (total + limit - 1) / limit;
    var m := (total + limit - 1) % limit;
    assert total + limit - 1 == q * limit + m;
    assert (q - 1) * limit == q * limit - limit;
    if total == 0 then
      assert q == 0;
      q
    else
      assert q > 0;
      q
  }

  /** `paginatedResponse`: the counters are echoed, the rows passed through, the
      page count is the ceiling of total over limit and the code is always 200. */
  function PaginatedResponse<T>(data: seq<T>, total: nat, page: int, limit: Positive, message: Option<string>): (r: Envelope<seq<T>>)
    ensures r.success && r.data == Some(data) && r.error.None? && r.statusCode == 200
    ensures r.message == Some(message.GetOr("Success"))
    ensures r.pagination.Some?
    ensures r.pagination.value.total == total && r.pagination.value.page == page && r.pagination.value.limit == limit
    ensures r.pagination.value.pages == Pages(total, limit)
  {
    Envelope(true, Some(data), None, Some(message.GetOr(DefaultMessage)),
             200, Some(Pagination(total, page, limit, Pages(total, limit))))
  }

  lemma PagesExample()
    ensures Pages(15, 10) == 2
    ensures Pages(0, 10) == 0
    ensures Pages(10, 10) == 1
  {
  }

  // ---------------------------------------------------------------- replies

  /** `NextResponse.json(errorResponse(message, code), { status: code })`. */
  function ErrorReply<T>(message: string, code: int): (r: Reply<T>)
    ensures r.status == code && r.body.statusCode == code && !r.body.success
    ensures r.body.error == Some(message) && r.body.data.None?
  {
    Reply(code, ErrorResponse(message, Some(code)))
  }

  /** `NextResponse.json(successResponse(data, message, code), { status: code })`. */
  function SuccessReply<T>(data: T, message: string, code: int): (r: Reply<T>)
    ensures r.status == code && r.body.statusCode == code && r.body.success
    ensures r.body.data == Some(data) && r.body.message == Some(message)
  {
    Reply(code, SuccessResponse(data, Some(message), Some(code)))
  }

  /** The HTTP status always agrees with the envelope's `statusCode`. */
  predicate Consistent<T>(r: Reply<T>) {
    r.status == r.body.statusCode
  }
}
