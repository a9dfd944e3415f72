/**
 * The part of fasthttp's `*RequestCtx` that the interceptor reads: the request
 * method, the full request URI, the request headers and the response status.
 * Each accessor of the library (`Method()`, `URI().String()`,
 * `Request.Header.Peek`, `Response.StatusCode()`) becomes a plain field.
 */
module FastHTTP {

  datatype RequestCtx = RequestCtx(
    httpMethod: string,
    uri: string,
    headers: map<string, string>,
    statusCode: int)

  /**
   * `string(ctx.Request.Header.Peek(key))`: the header's value, or the empty
   * string when the request has no such header (Peek returns nil then).
   */
  function Peek(ctx: RequestCtx, key: string): (value: string)
    ensures key in ctx.headers ==> value == ctx.headers[key]
    ensures key !in ctx.headers ==> value == ""
  {
    if key in ctx.headers then ctx.headers[key] else ""
  }
}
