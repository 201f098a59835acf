/** The shape of a failed `authAPI` call as a page's `catch (err)` block sees it. */
module Api {
  import opened Wrappers

  /** Either no HTTP response at all (the server was unreachable), or a response with a
      status code whose body may carry a `detail` string. */
  datatype ApiError = NoResponse | ErrorResponse(status: int, detail: Option<string>)

  /** `err.response?.data?.detail` when it is truthy, i.e. present and not the empty string. */
  function ReportedDetail(e: ApiError): (d: Option<string>)
    ensures d.Some? <==> e.ErrorResponse? && e.detail.Some? && e.detail.value != ""
    ensures d.Some? ==> d.value == e.detail.value
  {
    match e
    case NoResponse => None
    case ErrorResponse(_, detail) =>
      if detail.Some? && detail.value != "" then detail else None
  }

  /** The message a page shows: the server's detail verbatim, else the page's own fallback. */
  function DetailOr(e: ApiError, fallback: string): (m: string)
    ensures ReportedDetail(e).Some? ==> m == ReportedDetail(e).value
    ensures ReportedDetail(e).None? ==> m == fallback
    ensures fallback != "" ==> m != ""
  {
    match ReportedDetail(e)
    case Some(d) => d
    case None => fallback
  }
}
