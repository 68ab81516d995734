/** HTTP methods, status codes, endpoints (src/types/http.ts) and the two
    response writers of src/helpers/response.ts, folded into values. */
module HttpTypes {
  import opened Wrappers
  import opened Json

  datatype HTTPMethod = Get | Post | Put | Delete

  /** The string value of each `HTTPMethod` member. */
  function MethodName(m: HTTPMethod): string
  {
    match m
    case Get => "GET"
    case Post => "POST"
    case Put => "PUT"
    case Delete => "DELETE"
  }

  /** `switch (req.method)`: which member a request's method string is. */
  function ParseMethod(s: string): (r: Option<HTTPMethod>)
    ensures r.Some? <==> s in MethodNames()
    ensures r.Some? ==> MethodName(r.value) == s
  {
    if s == "GET" then Some(Get)
    else if s == "POST" then Some(Post)
    else if s == "PUT" then Some(Put)
    else if s == "DELETE" then Some(Delete)
    else None
  }

  /** `Object.values(HTTPMethod)`. */
  function MethodNames(): set<string>
  {
    {"GET", "POST", "PUT", "DELETE"}
  }

  lemma ParseMethodName(m: HTTPMethod)
    ensures ParseMethod(MethodName(m)) == Some(m)
  {
  }

  const OK: int := 200
  const Created: int := 201
  const NoContent: int := 204
  const BadRequest: int := 400
  const NotFound: int := 404
  const ServerErrorStatus: int := 500

  /** The numeric values of `HTTPStatusCode`. */
  function StatusCodes(): set<int>
  {
    {OK, Created, NoContent, BadRequest, NotFound, ServerErrorStatus}
  }

  /** `Endpoint` is imported from src/types/http.ts but not defined there; it
      has the two members the code uses. */
  datatype Endpoint = Users | UsersWithId

  /** The string an `Endpoint` member becomes on the wire.  Its value is not
      defined in src/types/http.ts; nothing proved here depends on it beyond
      the two being distinct. */
  function EndpointValue(e: Endpoint): string
  {
    match e
    case Users => "USERS"
    case UsersWithId => "USERS_WITH_ID"
  }

  /** `EndpointData`: the route and the id segment (`null` for `/api/users`). */
  datatype EndpointData = EndpointData(endpoint: Endpoint, userId: Option<string>)

  /** A request body as `getRequestBody` delivers it: the stream failed with
      an error message, or it produced a text (together with what
      `JSON.parse` makes of that text). */
  datatype RequestBody = ReadFailed(message: string) | Received(text: string, parsed: ParseOutcome)

  /** An incoming request: method, url (`''` when absent) and the body
      `getRequestBody` would deliver if it were read. */
  datatype Request = Request(verb: string, url: string, body: RequestBody)

  /** What a response writer leaves on an `http.ServerResponse`. */
  datatype Body = NoBody | JsonBody(value: Json) | TextBody(text: string)

  /** `statusCode` and `Content-Type` are `None` when nothing set them (the
      server's defaults then apply). */
  datatype Response = Response(statusCode: Option<int>, contentType: Option<string>, body: Body)

  /** `sendPlaintextResponse`. */
  function PlaintextResponse(statusCode: int, text: string): (r: Response)
    ensures r.statusCode == Some(statusCode) && r.body == TextBody(text)
    ensures r.contentType == Some("text/plain")
  {
    Response(Some(statusCode), Some("text/plain"), TextBody(text))
  }

  /** `sendJSONResponse`: the body is written only when `data` is truthy;
      `data` is `None` when the argument is omitted or `undefined`. */
  function JSONResponse(statusCode: int, data: Option<Json>): (r: Response)
    ensures r.statusCode == Some(statusCode) && r.contentType == Some("application/json")
    ensures r.body == NoBody <==> data.None? || !Truthy(data.value)
    ensures r.body != NoBody ==> r.body == JsonBody(data.value)
  {
    if data.Some? && Truthy(data.value) then
      Response(Some(statusCode), Some("application/json"), JsonBody(data.value))
    else
      Response(Some(statusCode), Some("application/json"), NoBody)
  }
}
