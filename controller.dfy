/** `Controller` (src/controller.ts): checks the route each method accepts,
    delegates to the store and writes the response.  The response object a
    method writes into is modelled as the `Response` value it returns; a
    thrown error is a `Failure`. */
module Controllers {
  import opened Wrappers
  import opened Json
  import opened Errors
  import opened HttpTypes
  import opened Users
  import Uuid
  import UserStore

  /** `JSON.stringify(users)`: the list as a JSON array, in store order. */
  function UsersJson(users: seq<User>): (j: Json)
    ensures j.JArray? && |j.items| == |users|
    ensures forall i :: 0 <= i < |users| ==> j.items[i] == UserJson(users[i])
  {
    JArray(seq(|users|, i requires 0 <= i < |users| => UserJson(users[i])))
  }

  /** `endpointData.userId ?? ''`. */
  function IdOrEmpty(ed: EndpointData): string
  {
    if ed.userId.Some? then ed.userId.value else ""
  }

  /** 200 with a JSON body, as `get` writes it (without `sendJSONResponse`,
      so the body is written even when it is an empty array). */
  function OkJson(j: Json): Response
  {
    Response(Some(OK), Some("application/json"), JsonBody(j))
  }

  /** `get`: the whole list on USERS, the one record on USERS_WITH_ID. */
  function HandleGet(users: seq<User>, ed: EndpointData): (r: Result<Response, Error>)
    ensures ed.endpoint == Users ==> r == Success(OkJson(UsersJson(users)))
    ensures ed.endpoint == UsersWithId ==>
      match UserStore.Lookup(users, IdOrEmpty(ed))
      case Success(u) => r == Success(OkJson(UserJson(u)))
      case Failure(e) => r == Failure(e)
    ensures r.Success? ==> r.value.statusCode == Some(OK) && r.value.body.JsonBody?
    ensures r.Failure? ==> r.error == InvalidUUIDError || r.error == UserNotFoundError
  {
    match ed.endpoint
    case Users => Success(OkJson(UsersJson(users)))
    case UsersWithId =>
      match UserStore.Lookup(users, IdOrEmpty(ed))
      case Success(u) => Success(OkJson(UserJson(u)))
      case Failure(e) => Failure(e)
  }

  /** `post`: the route is checked before the body is parsed; a body that
      does not parse throws its `SyntaxError`; a created record is answered
      with 201 and the record. */
  function HandlePost(users: seq<User>, ed: EndpointData, body: ParseOutcome, newId: string): (s: UserStore.Step<Response>)
    ensures ed.endpoint != Users ==> s == UserStore.Step(Failure(InvalidEndpointError), users)
    ensures ed.endpoint == Users && body.SyntaxError? ==> s == UserStore.Step(Failure(OtherError(body.message)), users)
    ensures ed.endpoint == Users && body.Parsed? ==>
      var c := UserStore.Create(users, body.value, newId);
      && s.users == c.users
      && (c.result.Failure? ==> s.result == Failure(c.result.error))
      && (c.result.Success? ==> s.result == Success(JSONResponse(Created, Some(UserJson(c.result.value)))))
    ensures s.result.Success? ==> s.result.value.statusCode == Some(Created) && s.result.value.body.JsonBody?
  {
    if ed.endpoint != Users then UserStore.Step(Failure(InvalidEndpointError), users)
    else match body
      case SyntaxError(m) => UserStore.Step(Failure(OtherError(m)), users)
      case Parsed(v) =>
        var c := UserStore.Create(users, v, newId);
        match c.result
        case Failure(e) => UserStore.Step(Failure(e), c.users)
        case Success(u) => UserStore.Step(Success(JSONResponse(Created, Some(UserJson(u)))), c.users)
  }

  /** `put`: requires USERS_WITH_ID, parses the body, updates, answers 200
      with the updated record. */
  function HandlePut(users: seq<User>, ed: EndpointData, body: ParseOutcome): (s: UserStore.Step<Response>)
    ensures ed.endpoint != UsersWithId ==> s == UserStore.Step(Failure(InvalidEndpointError), users)
    ensures ed.endpoint == UsersWithId && body.SyntaxError? ==> s == UserStore.Step(Failure(OtherError(body.message)), users)
    ensures ed.endpoint == UsersWithId && body.Parsed? ==>
      var c := UserStore.Update(users, IdOrEmpty(ed), body.value);
      && s.users == c.users
      && (c.result.Failure? ==> s.result == Failure(c.result.error))
      && (c.result.Success? ==> s.result == Success(JSONResponse(OK, Some(UserJson(c.result.value)))))
    ensures s.result.Success? ==> s.result.value.statusCode == Some(OK) && s.result.value.body.JsonBody?
  {
    if ed.endpoint != UsersWithId then UserStore.Step(Failure(InvalidEndpointError), users)
    else match body
      case SyntaxError(m) => UserStore.Step(Failure(OtherError(m)), users)
      case Parsed(v) =>
        var c := UserStore.Update(users, IdOrEmpty(ed), v);
        match c.result
        case Failure(e) => UserStore.Step(Failure(e), c.users)
        case Success(u) => UserStore.Step(Success(JSONResponse(OK, Some(UserJson(u)))), c.users)
  }

  /** `delete`: requires USERS_WITH_ID and answers 204 with an empty body. */
  function HandleDelete(users: seq<User>, ed: EndpointData): (s: UserStore.Step<Response>)
    ensures ed.endpoint != UsersWithId ==> s == UserStore.Step(Failure(InvalidEndpointError), users)
    ensures ed.endpoint == UsersWithId ==>
      var d := UserStore.Delete(users, IdOrEmpty(ed));
      && s.users == d.users
      && (d.result.Failure? ==> s.result == Failure(d.result.error))
      && (d.result.Success? ==> s.result == Success(Response(Some(NoContent), Some("application/json"), NoBody)))
    ensures s.result.Success? ==> s.result.value.statusCode == Some(NoContent) && |s.users| == |users| - 1
    ensures s.result.Failure? ==> s.users == users
  {
    if ed.endpoint != UsersWithId then UserStore.Step(Failure(InvalidEndpointError), users)
    else
      var d := UserStore.Delete(users, IdOrEmpty(ed));
      match d.result
      case Failure(e) => UserStore.Step(Failure(e), d.users)
      case Success(_) => UserStore.Step(Success(JSONResponse(NoContent, None)), d.users)
  }

  /** A missing id becomes '' and so fails the UUID check. */
  lemma {:induction false} NullIdIsInvalidUuid(users: seq<User>, body: ParseOutcome)
    ensures HandleGet(users, EndpointData(UsersWithId, None)) == Failure(InvalidUUIDError)
    ensures HandleDelete(users, EndpointData(UsersWithId, None)) == UserStore.Step(Failure(InvalidUUIDError), users)
  {
    assert !Uuid.ValidateUUID("");
  }

  /** An empty store lists as `[]`. */
  lemma EmptyStoreListsEmptyArray(userId: Option<string>)
    ensures HandleGet([], EndpointData(Users, userId)) == Success(OkJson(JArray([])))
  {
  }

  class Controller {
    const store: UserStore.Store

    /** `new Controller()`: a controller over a new, empty store. */
    constructor ()
      ensures fresh(store) && store.users == []
    {
      store := new UserStore.Store([]);
    }

    /** `get` reads the store and changes nothing. */
    method Get(ed: EndpointData) returns (r: Result<Response, Error>)
      ensures r == HandleGet(store.users, ed)
    {
      match ed.endpoint
      case Users =>
        var all := store.GetAll();
        r := Success(OkJson(UsersJson(all)));
      case UsersWithId =>
        var u := store.GetUserById(IdOrEmpty(ed));
        if u.Failure? {
          return Failure(u.error);
        }
        r := Success(OkJson(UserJson(u.value)));
    }

    method Post(ed: EndpointData, body: ParseOutcome, newId: string) returns (r: Result<Response, Error>)
      modifies store
      ensures UserStore.Step(r, store.users) == HandlePost(old(store.users), ed, body, newId)
    {
      if ed.endpoint != Users {
        return Failure(InvalidEndpointError);
      }
      if body.SyntaxError? {
        return Failure(OtherError(body.message));
      }
      var u := store.CreateUser(body.value, newId);
      if u.Failure? {
        return Failure(u.error);
      }
      r := Success(JSONResponse(Created, Some(UserJson(u.value))));
    }

    method Put(ed: EndpointData, body: ParseOutcome) returns (r: Result<Response, Error>)
      modifies store
      ensures UserStore.Step(r, store.users) == HandlePut(old(store.users), ed, body)
    {
      if ed.endpoint != UsersWithId {
        return Failure(InvalidEndpointError);
      }
      if body.SyntaxError? {
        return Failure(OtherError(body.message));
      }
      var u := store.UpdateUser(IdOrEmpty(ed), body.value);
      if u.Failure? {
        return Failure(u.error);
      }
      r := Success(JSONResponse(OK, Some(UserJson(u.value))));
    }

    method Delete(ed: EndpointData) returns (r: Result<Response, Error>)
      modifies store
      ensures UserStore.Step(r, store.users) == HandleDelete(old(store.users), ed)
    {
      if ed.endpoint != UsersWithId {
        return Failure(InvalidEndpointError);
      }
      var d := store.DeleteUser(IdOrEmpty(ed));
      if d.Failure? {
        return Failure(d.error);
      }
      r := Success(JSONResponse(NoContent, None));
    }
  }
}
