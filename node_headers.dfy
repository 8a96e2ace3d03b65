/** Node's incoming request header table, shared by the proxy and login
    handlers. */
module NodeHeaders {
  import opened JsObject

  /** A value of Node's `req.headers`: a string, or an array of strings for
      headers that may repeat. Node lower-cases the names. */
  datatype HeaderValue = Single(s: string) | Multiple(values: seq<string>)

  type RequestHeaders = Entries<HeaderValue>
}
