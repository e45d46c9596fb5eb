/** The request and response records of the site's API routes. */
module Http {
  import opened Json

  /** An incoming request: its method and its parsed JSON object body. */
  datatype Request = Request(httpMethod: string, body: seq<(string, Value)>)

  /** What `res.status(status).json(body)` sends. */
  datatype Response = Response(status: int, body: Value)

  /** The answer both API routes give to any method other than POST. */
  const MethodNotAllowed: Response := Response(405, Obj([("message", Str("Method Not Allowed"))]))
}
