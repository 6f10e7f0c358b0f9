/**
 * The shapes the clients see of the HTTP transport. The transport itself
 * (URLSession) is not modelled: what it returns enters the model as input.
 */
module Http {

  /** An absolute URL, kept as its text. */
  datatype Url = Url(text: string)

  /** `base.appendingPathComponent(component)`: the URL with one more path
      component. URL arithmetic itself belongs to Foundation. */
  datatype Endpoint = Endpoint(base: Url, component: string)

  /** What a completion handler's `response` parameter holds: nothing, a
      response that is not an `HTTPURLResponse`, or an HTTP response. */
  datatype ResponseKind = NoResponse | NonHttp | Http(statusCode: int)

  /** `(200...299).contains(statusCode)`, the success class of section 15.3
      of RFC 9110. */
  predicate IsSuccessStatus(statusCode: int) {
    200 <= statusCode <= 299
  }
}
