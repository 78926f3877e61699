/**
 * What one `fetch` call gives the client, as an input to the model: a response
 * with its status, the `message` field of its JSON body and the endpoint's
 * payload, or an exception.  An exception carries the thrown `Error`'s
 * message, or None when the thrown value is not an `Error`.  A body that is
 * not JSON is an exception only where the handler calls `response.json()` on
 * it; to a handler that does not read the body it is a `Response` with no
 * message.
 */
module Http {
  import opened Wrappers
  import JsText

  datatype Response<T> =
    | Response(status: int, message: Option<string>, data: T)
    | Threw(error: Option<string>)

  /** `response.ok` */
  predicate IsOk(status: int) {
    200 <= status <= 299
  }

  predicate Succeeded<T>(r: Response<T>) {
    r.Response? && IsOk(r.status)
  }

  /** `error instanceof Error ? error.message : fallback` */
  function ThrownText(error: Option<string>, fallback: string): string {
    error.GetOr(fallback)
  }

  /**
   * The list a component holds after one of its list fetches (`if (!accessToken)
   * return`, then `setX(data.data || [])` on an ok response, errors only logged).
   */
  function ListAfterFetch<T>(current: seq<T>, token: Option<string>, r: Response<Option<seq<T>>>): (list: seq<T>)
    ensures !JsText.Truthy(token) || !Succeeded(r) ==> list == current
    ensures JsText.Truthy(token) && Succeeded(r) && r.data.None? ==> list == []
    ensures JsText.Truthy(token) && Succeeded(r) && r.data.Some? ==> list == r.data.value
  {
    if JsText.Truthy(token) && Succeeded(r) then r.data.GetOr([]) else current
  }
}
