/**
 * The `IntoRes` conversions (src/into_res.rs): the values a handler may
 * return and the response each becomes.
 */
module IntoResponse {
  import opened Wrappers
  import opened Strings
  import opened Http
  import opened Errors
  import R = Responses
  import H = ErrorHandlers

  /** A value of one of the types that implement `IntoRes`. */
  datatype Returned =
    | ResValue(res: R.Res)
    | StringValue(s: string)
    | StrValue(s: string)
    | UnitValue
    | ResultValue(result: Result<Returned, Error>)
    | ErrorValue(e: Error)
    | HtmlValue(s: string)
    | HtmlRef(s: string)

  /** `into_res` for each implementing type. */
  function IntoRes(v: Returned): R.Res
  {
    match v
    case ResValue(res) => res
    case StringValue(s) => R.Text(s)
    case StrValue(s) => R.Text(s)
    case UnitValue => R.Status(204)
    case ResultValue(Ok(inner)) => IntoRes(inner)
    case ResultValue(Err(e)) => H.DefaultHandle(e)
    case ErrorValue(e) => H.DefaultHandle(e)
    case HtmlValue(s) => R.Html(s)
    case HtmlRef(s) => R.Html(s)
  }

  /** The value a chain of `Ok` wrappers holds, or the first error on the way down. */
  function Unwrapped(v: Returned): (r: Result<Returned, Error>)
    ensures r.Ok? ==> !r.value.ResultValue?
  {
    match v
    case ResultValue(Ok(inner)) => Unwrapped(inner)
    case ResultValue(Err(e)) => Err(e)
    case _ => Ok(v)
  }

  /**
   * Nested results convert as the innermost value does, and an error anywhere
   * on the way down is rendered by the default error handler.
   */
  lemma {:induction false} IntoResUnwraps(v: Returned)
    ensures Unwrapped(v).Ok? ==> IntoRes(v) == IntoRes(Unwrapped(v).value)
    ensures Unwrapped(v).Err? ==> IntoRes(v) == H.DefaultHandle(Unwrapped(v).error)
  {
    match v
    case ResultValue(Ok(inner)) => IntoResUnwraps(inner);
    case _ =>
  }

  /**
   * A response converts to itself; both string types become 200 text with the
   * string's UTF-8 bytes; unit becomes an empty 204; both HTML forms become
   * 200 HTML with the string's bytes.
   */
  lemma IntoResPlainValues(res: R.Res, s: string)
    ensures IntoRes(ResValue(res)) == res
    ensures IntoRes(StringValue(s)) == IntoRes(StrValue(s)) == R.Text(s)
    ensures IntoRes(StringValue(s)).status == 200 && IntoRes(StringValue(s)).body == Utf8(s)
    ensures IntoRes(StringValue(s)).headers == map[CONTENT_TYPE := R.CONTENT_TYPE_TEXT]
    ensures IntoRes(UnitValue).status == 204 && IntoRes(UnitValue).body == [] && IntoRes(UnitValue).headers == map[]
    ensures IntoRes(HtmlValue(s)) == IntoRes(HtmlRef(s))
    ensures IntoRes(HtmlValue(s)).status == 200 && IntoRes(HtmlValue(s)).body == Utf8(s)
    ensures IntoRes(HtmlValue(s)).headers == map[CONTENT_TYPE := R.CONTENT_TYPE_HTML]
  {
  }

  /**
   * `Ok(v)` converts as `v`; `Err(e)` and a bare error both become the
   * default handler's response, whatever error handler the application set.
   */
  lemma IntoResResult(inner: Returned, e: Error)
    ensures IntoRes(ResultValue(Ok(inner))) == IntoRes(inner)
    ensures IntoRes(ResultValue(Err(e))) == IntoRes(ErrorValue(e)) == H.Handle(H.DefaultErrorHandler, e)
    ensures IntoRes(ErrorValue(e)).status == StatusOrInternal(H.ErrorCode(e))
  {
    H.DefaultHandleShape(e);
  }
}
