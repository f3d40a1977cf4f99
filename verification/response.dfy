/** The response envelope every controller sends through `sendResponse`. */
module Response {
  import opened Common
  import opened Pagination

  /** The `meta` a controller hands in: `totalPage` is optional and is never trusted. */
  datatype MetaIn = MetaIn(limit: int, page: int, total: int, totalPage: Option<int>)

  /** What a controller passes to `sendResponse`. */
  datatype ResponseIn<T> = ResponseIn(statusCode: int, success: bool, message: Option<string>, meta: Option<MetaIn>, data: Option<T>)

  /** The JSON object written to the client. */
  datatype Envelope<T> = Envelope(statusCode: int, success: bool, message: Option<string>, meta: Option<Meta>, data: Option<T>)

  function SendResponse<T>(d: ResponseIn<T>): (e: Envelope<T>)
    ensures e.statusCode == d.statusCode && e.success == d.success
    ensures e.message == d.message && e.data == d.data
    ensures e.meta.None? <==> d.meta.None?
    ensures d.meta.Some? ==>
      e.meta.value.page == d.meta.value.page &&
      e.meta.value.limit == d.meta.value.limit &&
      e.meta.value.total == d.meta.value.total
    ensures d.meta.Some? && d.meta.value.limit > 0 ==>
      var m := e.meta.value;
      m.totalPage.Some? && m.totalPage.value * m.limit >= m.total && (m.totalPage.value - 1) * m.limit < m.total
    ensures d.meta.Some? ==> (e.meta.value.totalPage.None? <==> d.meta.value.limit == 0)
  {
    var meta := match d.meta
      case None => None
      case Some(m) => Some(Meta(m.page, m.limit, m.total, TotalPage(m.total, m.limit)));
    Envelope(d.statusCode, d.success, d.message, meta, d.data)
  }

  /** The envelope does not depend on the caller's `totalPage`: two inputs that
      differ only there produce the same envelope. */
  lemma CallerTotalPageIgnored<T>(d: ResponseIn<T>, other: Option<int>)
    requires d.meta.Some?
    ensures SendResponse(d.(meta := Some(d.meta.value.(totalPage := other)))) == SendResponse(d)
  {
  }

  /** A list response built from `paginationHelper` reports the helper's page count. */
  lemma EnvelopeAgreesWithHelper<T>(o: Options, total: int, status: int, msg: Option<string>, data: Option<T>)
    ensures
      var m := PaginationHelper(o, total);
      var e := SendResponse(ResponseIn(status, true, msg, Some(MetaIn(m.limit, m.page, m.total, m.totalPage)), data));
      e.meta == Some(m)
  {
  }
}
