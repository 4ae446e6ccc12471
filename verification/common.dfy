/** Small value types shared by every module. */
module Common {

  datatype Option<T> = None | Some(value: T)

  /**
   * The HTTP status codes the route handlers answer with; 500 stands for an
   * exception that the handler's own `except` clause turns into an answer.
   * That includes the "not found" error `get_or_404` raises inside such a
   * handler: `except Exception` catches it too, so an unknown id looked up
   * that way is answered with 500, not 404.
   */
  datatype Status = Ok200 | BadRequest400 | Forbidden403 | NotFound404 | InternalError500

  function Code(s: Status): (c: int)
    ensures 200 <= c <= 500
    ensures c == 200 <==> s == Ok200
  {
    match s
    case Ok200 => 200
    case BadRequest400 => 400
    case Forbidden403 => 403
    case NotFound404 => 404
    case InternalError500 => 500
  }
}
