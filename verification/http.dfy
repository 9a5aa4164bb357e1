/** The request, response and error shapes the interceptor inspects. */
module Http {
  import opened Options

  /** HTTP status of an unauthorized response. */
  const Unauthorized: int := 401
  /** The reason code that makes a 401 refreshable. */
  const ExpiredCode: string := "token.expired"

  /** A request configuration; `id` tells callers apart, `authorization` is its own header. */
  datatype Request = Request(id: nat, url: string, authorization: Option<string>)

  /** A successful response to a request. */
  datatype Response = Response(config: Request, status: int)

  /** The server's error response: its status and the `code` of its body, if any. */
  datatype ErrorBody = ErrorBody(status: int, code: Option<string>)

  /** A failed request; `response` is absent for network failures. */
  datatype HttpError = HttpError(config: Request, response: Option<ErrorBody>)

  /**
    What a caller of the client can be rejected with: the request's own error,
    the typed auth error, or the error `Router.push` throws when it is called
    during a server render, where no router instance exists.
   */
  datatype ApiError = Original(error: HttpError) | AuthTokenError | NoRouterInstance

  /** A queued request's replay: its own configuration with `Bearer token` as Authorization. */
  function WithBearer(req: Request, token: string): (r: Request)
    ensures r.id == req.id && r.url == req.url
    ensures r.authorization == Some("Bearer " + token)
  {
    req.(authorization := Some("Bearer " + token))
  }
}
