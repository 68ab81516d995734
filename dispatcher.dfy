/** The single-process request handler (src/dispatcher.ts): parse the
    route, switch on the method, call the controller, and turn whatever
    was thrown into a plain-text error response (`handleError`). */
module Dispatcher {
  import opened Wrappers
  import opened Json
  import opened Errors
  import opened HttpTypes
  import opened Users
  import opened Endpoints
  import opened Controllers
  import Uuid
  import UserStore

  /** The response and the store's records once a request is handled. */
  datatype Outcome = Outcome(response: Response, users: seq<User>)

  /** `handleError`: the five error classes by status and message, anything
      else as 400 'Error: Unknown error'. */
  function HandleError(e: Error): (r: Response)
    ensures e == InvalidUUIDError || e == InvalidUserDataError || e == InvalidHTTPMethodError ==>
      r == PlaintextResponse(BadRequest, "Error: " + Message(e))
    ensures e == UserNotFoundError || e == InvalidEndpointError ==>
      r == PlaintextResponse(NotFound, "Error: " + Message(e))
    ensures !(e.InvalidUUIDError? || e.InvalidUserDataError? || e.UserNotFoundError? || e.InvalidEndpointError? || e.InvalidHTTPMethodError?) ==>
      r == PlaintextResponse(BadRequest, "Error: Unknown error")
    ensures r.statusCode != Some(ServerErrorStatus)
  {
    match e
    case InvalidUUIDError => PlaintextResponse(BadRequest, "Error: " + Message(e))
    case InvalidUserDataError => PlaintextResponse(BadRequest, "Error: " + Message(e))
    case UserNotFoundError => PlaintextResponse(NotFound, "Error: " + Message(e))
    case InvalidEndpointError => PlaintextResponse(NotFound, "Error: " + Message(e))
    case InvalidHTTPMethodError => PlaintextResponse(BadRequest, "Error: " + Message(e))
    case _ => PlaintextResponse(BadRequest, "Error: Unknown error")
  }

  /** The response for a controller step that either answered or threw. */
  function Answer(s: UserStore.Step<Response>): Outcome
  {
    match s.result
    case Success(r) => Outcome(r, s.users)
    case Failure(e) => Outcome(HandleError(e), s.users)
  }

  /** `dispatcher`, with `newId` the id `generateUUID` would supply to a
      create.  The body is read only for POST and PUT. */
  function Dispatched(users: seq<User>, req: Request, newId: string): (o: Outcome)
  {
    match ParseEndpoint(req.url)
    case Failure(e) => Outcome(HandleError(e), users)
    case Success(ed) => Dispatched'(users, req.verb, ed, req.body, newId)
  }

  /** The route is parsed before the method is looked at: an unknown route
      is 404 'Error: Request to non-existing endpoint' whatever the method,
      and the store is untouched. */
  lemma UnknownRoute(users: seq<User>, req: Request, newId: string)
    requires !IsUsersPath(req.url) && !IsUserIdPath(req.url)
    ensures Dispatched(users, req, newId) ==
      Outcome(PlaintextResponse(NotFound, "Error: " + "Request to non-existing endpoint"), users)
  {
    assert ParseEndpoint(req.url) == Failure(InvalidEndpointError);
    assert Dispatched(users, req, newId) == Outcome(HandleError(InvalidEndpointError), users);
    assert HandleError(InvalidEndpointError) == PlaintextResponse(NotFound, "Error: " + Message(InvalidEndpointError));
  }

  /** A method other than GET, POST, PUT and DELETE on a known route is 400
      'Error: Invalid HTTP method' and leaves the store untouched. */
  lemma UnsupportedMethod(users: seq<User>, req: Request, newId: string)
    requires IsUsersPath(req.url) || IsUserIdPath(req.url)
    requires req.verb !in MethodNames()
    ensures Dispatched(users, req, newId) == Outcome(PlaintextResponse(BadRequest, "Error: " + "Invalid HTTP method"), users)
  {
  }

  /** A body that does not parse, or a body stream that fails, is 400
      'Error: Unknown error', not 500, for a create on `/api/users` and for
      an update on `/api/users/{id}` alike. */
  lemma BadBodyIsUnknownError(users: seq<User>, req: Request, newId: string)
    requires (req.verb == "POST" && IsUsersPath(req.url)) || (req.verb == "PUT" && IsUserIdPath(req.url))
    requires req.body.ReadFailed? || req.body.parsed.SyntaxError?
    ensures Dispatched(users, req, newId) == Outcome(PlaintextResponse(BadRequest, "Error: Unknown error"), users)
  {
  }

  /** Only POST and PUT read the body: for any other method the outcome
      does not depend on it. */
  lemma BodyReadOnlyForPostAndPut(users: seq<User>, verb: string, url: string, b1: RequestBody, b2: RequestBody, newId: string)
    requires verb != "POST" && verb != "PUT"
    ensures Dispatched(users, Request(verb, url, b1), newId) == Dispatched(users, Request(verb, url, b2), newId)
  {
  }

  /** A create on `/api/users` with an accepted payload: 201 and the new
      record, appended. */
  lemma {:induction false} CreateRequest(users: seq<User>, dto: Json, id: string, t: string)
    requires ValidateUserDto(dto)
    ensures Dispatched(users, Request("POST", UsersPath, Received(t, Parsed(dto))), id)
         == Outcome(JSONResponse(Created, Some(UserJson(User(id, dto.fields)))), users + [User(id, dto.fields)])
  {
    assert ParseEndpoint(UsersPath) == Success(EndpointData(Users, None));
  }

  /** A read, update or delete on `/api/users/{id}` for a well-formed id. */
  lemma {:induction false} IdRequest(users: seq<User>, verb: string, id: string, body: RequestBody, newId: string)
    requires Uuid.ValidateUUID(id)
    ensures Dispatched(users, Request(verb, UsersPrefix + id, body), newId)
         == Dispatched'(users, verb, EndpointData(UsersWithId, Some(id)), body, newId)
  {
    Uuid.ValidUuidLength(id);
    ParseUserIdPath(id);
    assert ParseEndpoint(UsersPrefix + id) == Success(EndpointData(UsersWithId, Some(id)));
  }

  /** `Dispatched` once the route is known. */
  function Dispatched'(users: seq<User>, verb: string, ed: EndpointData, body: RequestBody, newId: string): Outcome
  {
    match ParseMethod(verb)
    case None => Outcome(HandleError(InvalidHTTPMethodError), users)
    case Some(Get) =>
      (match HandleGet(users, ed)
       case Success(r) => Outcome(r, users)
       case Failure(e) => Outcome(HandleError(e), users))
    case Some(Post) =>
      (match body
       case ReadFailed(m) => Outcome(HandleError(OtherError(m)), users)
       case Received(_, p) => Answer(HandlePost(users, ed, p, newId)))
    case Some(Put) =>
      (match body
       case ReadFailed(m) => Outcome(HandleError(OtherError(m)), users)
       case Received(_, p) => Answer(HandlePut(users, ed, p)))
    case Some(Delete) => Answer(HandleDelete(users, ed))
  }

  /** One step of the method switch for each method. */
  lemma GetStep(users: seq<User>, ed: EndpointData, body: RequestBody, newId: string)
    ensures Dispatched'(users, "GET", ed, body, newId) ==
      match HandleGet(users, ed)
      case Success(r) => Outcome(r, users)
      case Failure(e) => Outcome(HandleError(e), users)
  {
    assert ParseMethod("GET") == Some(Get);
  }

  lemma PutStep(users: seq<User>, ed: EndpointData, t: string, p: ParseOutcome, newId: string)
    ensures Dispatched'(users, "PUT", ed, Received(t, p), newId) == Answer(HandlePut(users, ed, p))
  {
    assert ParseMethod("PUT") == Some(Put);
  }

  lemma DeleteStep(users: seq<User>, ed: EndpointData, body: RequestBody, newId: string)
    ensures Dispatched'(users, "DELETE", ed, body, newId) == Answer(HandleDelete(users, ed))
  {
    assert ParseMethod("DELETE") == Some(Delete);
  }

  /** A read, update or delete on `/api/users/{id}` of an id some record
      of the store holds acts on the first such record. */
  lemma {:induction false} ReadExisting(users: seq<User>, id: string, none: RequestBody, newId: string)
    requires Uuid.ValidateUUID(id) && UserStore.HasId(users, id)
    ensures UserStore.Locate(users, id).Success?
    ensures Dispatched(users, Request("GET", UsersPrefix + id, none), newId)
      == Outcome(OkJson(UserJson(users[UserStore.Locate(users, id).value])), users)
  {
    IdRequest(users, "GET", id, none, newId);
    GetStep(users, EndpointData(UsersWithId, Some(id)), none, newId);
  }

  lemma {:induction false} UpdateExisting(users: seq<User>, id: string, dto: Json, t: string, newId: string)
    requires Uuid.ValidateUUID(id) && UserStore.HasId(users, id) && ValidateUserDto(dto)
    ensures UserStore.Locate(users, id).Success?
    ensures var i := UserStore.Locate(users, id).value;
      var u' := User(id, users[i].payload + dto.fields);
      Dispatched(users, Request("PUT", UsersPrefix + id, Received(t, Parsed(dto))), newId)
        == Outcome(JSONResponse(OK, Some(UserJson(u'))), users[i := u'])
  {
    IdRequest(users, "PUT", id, Received(t, Parsed(dto)), newId);
    var ed := EndpointData(UsersWithId, Some(id));
    var i := UserStore.Locate(users, id).value;
    var u' := User(id, users[i].payload + dto.fields);
    assert UserStore.Update(users, id, dto) == UserStore.Step(Success(u'), users[i := u']);
    assert HandlePut(users, ed, Parsed(dto)) == UserStore.Step(Success(JSONResponse(OK, Some(UserJson(u')))), users[i := u']);
    PutStep(users, ed, t, Parsed(dto), newId);
  }

  lemma {:induction false} DeleteExisting(users: seq<User>, id: string, none: RequestBody, newId: string)
    requires Uuid.ValidateUUID(id) && UserStore.HasId(users, id)
    ensures UserStore.Locate(users, id).Success?
    ensures var i := UserStore.Locate(users, id).value;
      Dispatched(users, Request("DELETE", UsersPrefix + id, none), newId)
        == Outcome(Response(Some(NoContent), Some("application/json"), NoBody), users[..i] + users[i + 1..])
  {
    IdRequest(users, "DELETE", id, none, newId);
    var ed := EndpointData(UsersWithId, Some(id));
    var i := UserStore.Locate(users, id).value;
    assert UserStore.Delete(users, id) == UserStore.Step(Success(()), users[..i] + users[i + 1..]);
    assert HandleDelete(users, ed) == UserStore.Step(Success(JSONResponse(NoContent, None)), users[..i] + users[i + 1..]);
    DeleteStep(users, ed, none, newId);
  }

  /** A read of a well-formed id no record holds is 404 'Error: User not
      found', and the store is untouched. */
  lemma {:induction false} ReadMissing(users: seq<User>, id: string, none: RequestBody, newId: string)
    requires Uuid.ValidateUUID(id) && !UserStore.HasId(users, id)
    ensures Dispatched(users, Request("GET", UsersPrefix + id, none), newId)
      == Outcome(PlaintextResponse(NotFound, "Error: " + "User not found"), users)
  {
    IdRequest(users, "GET", id, none, newId);
    var ed := EndpointData(UsersWithId, Some(id));
    GetStep(users, ed, none, newId);
    assert UserStore.Locate(users, id) == Failure(UserNotFoundError);
    assert HandleGet(users, ed) == Failure(UserNotFoundError);
    assert Dispatched'(users, "GET", ed, none, newId) == Outcome(HandleError(UserNotFoundError), users);
  }

  /** The first test scenario on a fresh store: list (200, `[]`), create
      (201), read (200), update (200, same id), delete (204, empty body),
      read again (404 'Error: User not found'). */
  lemma {:induction false} CrudScenario(dto1: Json, dto2: Json, id: string, t1: string, t2: string, none: RequestBody)
    requires ValidateUserDto(dto1) && ValidateUserDto(dto2) && Uuid.ValidateUUID(id)
    ensures Dispatched([], Request("GET", UsersPath, none), id) == Outcome(OkJson(JArray([])), [])
    ensures
      var s1 := Dispatched([], Request("POST", UsersPath, Received(t1, Parsed(dto1))), id);
      var s2 := Dispatched(s1.users, Request("GET", UsersPrefix + id, none), id);
      var s3 := Dispatched(s2.users, Request("PUT", UsersPrefix + id, Received(t2, Parsed(dto2))), id);
      var s4 := Dispatched(s3.users, Request("DELETE", UsersPrefix + id, none), id);
      var s5 := Dispatched(s4.users, Request("GET", UsersPrefix + id, none), id);
      && s1.response == JSONResponse(Created, Some(UserJson(User(id, dto1.fields))))
      && s2.response == OkJson(UserJson(User(id, dto1.fields)))
      && s3.response == JSONResponse(OK, Some(UserJson(User(id, dto1.fields + dto2.fields))))
      && s4.response == Response(Some(NoContent), Some("application/json"), NoBody)
      && s5.response == PlaintextResponse(NotFound, "Error: " + "User not found")
      && s5.users == []
  {
    assert ParseEndpoint(UsersPath) == Success(EndpointData(Users, None));
    var u1 := User(id, dto1.fields);
    var u2 := User(id, dto1.fields + dto2.fields);
    CreateRequest([], dto1, id, t1);
    assert [] + [u1] == [u1];
    var s1 := Dispatched([], Request("POST", UsersPath, Received(t1, Parsed(dto1))), id);
    assert s1 == Outcome(JSONResponse(Created, Some(UserJson(u1))), [u1]);
    ReadSingleton(u1, none, id);
    UpdateSingleton(u1, dto2, t2, id);
    DeleteSingleton(u2, none, id);
    ReadMissing([], id, none, id);
  }

  /** The read, update and delete steps of the scenario, on the store
      holding only `u`. */
  lemma {:induction false} ReadSingleton(u: User, none: RequestBody, id: string)
    requires Uuid.ValidateUUID(u.id)
    ensures Dispatched([u], Request("GET", UsersPrefix + u.id, none), id) == Outcome(OkJson(UserJson(u)), [u])
  {
    assert [u][0].id == u.id;
    ReadExisting([u], u.id, none, id);
  }

  lemma {:induction false} UpdateSingleton(u: User, dto: Json, t: string, id: string)
    requires ValidateUserDto(dto) && Uuid.ValidateUUID(u.id)
    ensures var u' := User(u.id, u.payload + dto.fields);
      Dispatched([u], Request("PUT", UsersPrefix + u.id, Received(t, Parsed(dto))), id)
        == Outcome(JSONResponse(OK, Some(UserJson(u'))), [u'])
  {
    var u' := User(u.id, u.payload + dto.fields);
    assert [u][0].id == u.id;
    UpdateExisting([u], u.id, dto, t, id);
    assert [u][0 := u'] == [u'];
  }

  lemma {:induction false} DeleteSingleton(u: User, none: RequestBody, id: string)
    requires Uuid.ValidateUUID(u.id)
    ensures Dispatched([u], Request("DELETE", UsersPrefix + u.id, none), id)
      == Outcome(Response(Some(NoContent), Some("application/json"), NoBody), [])
  {
    assert [u][0].id == u.id;
    DeleteExisting([u], u.id, none, id);
    assert [u][..0] + [u][1..] == [];
  }

  /** `dispatcher` over the module-level controller. */
  method Dispatch(controller: Controller, req: Request, newId: string) returns (res: Response)
    modifies controller.store
    ensures Outcome(res, controller.store.users) == Dispatched(old(controller.store.users), req, newId)
  {
    var parsed := ParseEndpoint(req.url);
    if parsed.Failure? {
      return HandleError(parsed.error);
    }
    var ed := parsed.value;
    var r: Result<Response, Error>;
    match ParseMethod(req.verb) {
      case None =>
        r := Failure(InvalidHTTPMethodError);
      case Some(Get) =>
        r := controller.Get(ed);
      case Some(Post) =>
        if req.body.ReadFailed? {
          r := Failure(OtherError(req.body.message));
        } else {
          r := controller.Post(ed, req.body.parsed, newId);
        }
      case Some(Put) =>
        if req.body.ReadFailed? {
          r := Failure(OtherError(req.body.message));
        } else {
          r := controller.Put(ed, req.body.parsed);
        }
      case Some(Delete) =>
        r := controller.Delete(ed);
    }
    res := if r.Success? then r.value else HandleError(r.error);
  }
}
