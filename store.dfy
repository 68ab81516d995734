/** The in-memory user store (src/store.ts): an ordered list of records
    with create, read, update and delete.  The pure functions say what each
    operation does to the list; the `Store` class performs the operations
    in place and is proved against them. */
module UserStore {
  import opened Wrappers
  import opened Json
  import opened Errors
  import opened Users
  import opened Uuid

  /** The outcome of an operation: its result or the error it throws, and
      the list of records afterwards. */
  datatype Step<T> = Step(result: Result<T, Error>, users: seq<User>)

  /** `store.findIndex((user) => user.id === userId)`: the first index
      holding `id`, or -1. */
  function IndexOf(users: seq<User>, id: string): (r: int)
    ensures -1 <= r < |users|
    ensures r == -1 <==> forall j :: 0 <= j < |users| ==> users[j].id != id
    ensures r >= 0 ==> users[r].id == id && forall j :: 0 <= j < r ==> users[j].id != id
  {
    if |users| == 0 then -1
    else if users[0].id == id then 0
    else
      var r := IndexOf(users[1..], id);
      if r == -1 then -1 else r + 1
  }

  /** `findUserIndexByUserId`: the id's format is checked first, then the
      list is searched. */
  function Locate(users: seq<User>, userId: string): (r: Result<nat, Error>)
    ensures r == Failure(InvalidUUIDError) <==> !ValidateUUID(userId)
    ensures r == Failure(UserNotFoundError) <==>
      ValidateUUID(userId) && forall j :: 0 <= j < |users| ==> users[j].id != userId
    ensures r.Failure? ==> r.error == InvalidUUIDError || r.error == UserNotFoundError
    ensures r.Success? ==>
      r.value < |users| && users[r.value].id == userId && forall j :: 0 <= j < r.value ==> users[j].id != userId
  {
    if !ValidateUUID(userId) then Failure(InvalidUUIDError)
    else
      var i := IndexOf(users, userId);
      if i == -1 then Failure(UserNotFoundError) else Success(i)
  }

  /** `getUserById`. */
  function Lookup(users: seq<User>, userId: string): (r: Result<User, Error>)
    ensures r.Success? <==> Locate(users, userId).Success?
    ensures r.Success? ==> r.value == users[Locate(users, userId).value] && r.value.id == userId
    ensures r.Failure? ==> r.error == Locate(users, userId).error
  {
    match Locate(users, userId)
    case Failure(e) => Failure(e)
    case Success(i) => Success(users[i])
  }

  /** `createUser`: a payload failing `validateUserDto` throws and changes
      nothing; otherwise one record, with the generated id `newId` in place
      of any `id` the client sent, is appended. */
  function Create(users: seq<User>, dto: Json, newId: string): (s: Step<User>)
    ensures !ValidateUserDto(dto) ==> s == Step(Failure(InvalidUserDataError), users)
    ensures ValidateUserDto(dto) ==>
      s.result.Success? && s.users == users + [s.result.value]
      && s.result.value.id == newId
      && UserFields(s.result.value) == dto.fields["id" := JString(newId)]
  {
    if !ValidateUserDto(dto) then Step(Failure(InvalidUserDataError), users)
    else
      var u := User(newId, dto.fields);
      Step(Success(u), users + [u])
  }

  /** `updateUser`: the payload is checked before the id; the matched
      record takes the payload's fields over its own and keeps its id; no
      other slot changes. */
  function Update(users: seq<User>, userId: string, dto: Json): (s: Step<User>)
    ensures !ValidateUserDto(dto) ==> s == Step(Failure(InvalidUserDataError), users)
    ensures ValidateUserDto(dto) && Locate(users, userId).Failure? ==>
      s == Step(Failure(Locate(users, userId).error), users)
    ensures s.result.Success? ==>
      var i := Locate(users, userId).value;
      && ValidateUserDto(dto) && Locate(users, userId).Success?
      && |s.users| == |users|
      && s.users[i] == s.result.value
      && s.result.value.id == users[i].id == userId
      && UserFields(s.result.value) == (UserFields(users[i]) + dto.fields)["id" := JString(users[i].id)]
      && (forall j :: 0 <= j < |users| && j != i ==> s.users[j] == users[j])
  {
    if !ValidateUserDto(dto) then Step(Failure(InvalidUserDataError), users)
    else match Locate(users, userId)
      case Failure(e) => Step(Failure(e), users)
      case Success(i) =>
        var u := User(users[i].id, users[i].payload + dto.fields);
        Step(Success(u), users[i := u])
  }

  /** `deleteUser`: removes the first record with that id and keeps the
      order of the rest. */
  function Delete(users: seq<User>, userId: string): (s: Step<()>)
    ensures s.result.Success? <==> Locate(users, userId).Success?
    ensures s.result.Failure? ==> s == Step(Failure(Locate(users, userId).error), users)
    ensures s.result.Success? ==>
      var i := Locate(users, userId).value;
      s.users == users[..i] + users[i + 1..] && |s.users| == |users| - 1
  {
    match Locate(users, userId)
    case Failure(e) => Step(Failure(e), users)
    case Success(i) => Step(Success(()), users[..i] + users[i + 1..])
  }

  /** Ids are pairwise distinct. */
  predicate UniqueIds(users: seq<User>)
  {
    forall i, j :: 0 <= i < j < |users| ==> users[i].id != users[j].id
  }

  predicate HasId(users: seq<User>, id: string)
  {
    exists j :: 0 <= j < |users| && users[j].id == id
  }

  /** An ill-formed id throws `InvalidUUIDError` and a well-formed id that
      no record has throws `UserNotFoundError`, for get, update (with a
      valid payload) and delete alike, and the list is left as it was. */
  lemma {:induction false} IdErrors(users: seq<User>, userId: string, dto: Json)
    requires ValidateUserDto(dto)
    ensures !ValidateUUID(userId) ==>
      && Lookup(users, userId) == Failure(InvalidUUIDError)
      && Update(users, userId, dto) == Step(Failure(InvalidUUIDError), users)
      && Delete(users, userId) == Step(Failure(InvalidUUIDError), users)
    ensures ValidateUUID(userId) && !HasId(users, userId) ==>
      && Lookup(users, userId) == Failure(UserNotFoundError)
      && Update(users, userId, dto) == Step(Failure(UserNotFoundError), users)
      && Delete(users, userId) == Step(Failure(UserNotFoundError), users)
  {
    if ValidateUUID(userId) && !HasId(users, userId) {
      assert forall j :: 0 <= j < |users| ==> users[j].id != userId;
    }
  }

  /** Create then read: the created record is found by its id.  Then
      delete: it is gone.  (The generated id is well formed and fresh.) */
  lemma {:induction false} CreateReadDelete(users: seq<User>, dto: Json, newId: string)
    requires ValidateUserDto(dto) && ValidateUUID(newId) && !HasId(users, newId)
    ensures var c := Create(users, dto, newId);
      && Lookup(c.users, newId) == c.result
      && Delete(c.users, newId).users == users
      && Lookup(Delete(c.users, newId).users, newId) == Failure(UserNotFoundError)
  {
    var c := Create(users, dto, newId);
    assert forall j :: 0 <= j < |users| ==> users[j].id != newId;
    assert c.users[|users|].id == newId;
    assert forall j :: 0 <= j < |users| ==> c.users[j].id != newId;
    assert IndexOf(c.users, newId) == |users|;
    assert c.users[..|users|] == users;
  }

  /** A fresh generated id keeps ids distinct through a create. */
  lemma CreateKeepsIdsUnique(users: seq<User>, dto: Json, newId: string)
    requires UniqueIds(users) && !HasId(users, newId)
    ensures UniqueIds(Create(users, dto, newId).users)
  {
  }

  /** Updates keep every id, so they keep ids distinct. */
  lemma {:induction false} UpdateKeepsIds(users: seq<User>, userId: string, dto: Json)
    ensures var u := Update(users, userId, dto).users;
      |u| == |users| && forall j :: 0 <= j < |users| ==> u[j].id == users[j].id
    ensures UniqueIds(users) ==> UniqueIds(Update(users, userId, dto).users)
  {
  }

  /** Deletes keep ids distinct. */
  lemma {:induction false} DeleteKeepsIdsUnique(users: seq<User>, userId: string)
    requires UniqueIds(users)
    ensures UniqueIds(Delete(users, userId).users)
  {
    var s := Delete(users, userId);
    if s.result.Success? {
      var i := Locate(users, userId).value;
      forall a, b | 0 <= a < b < |s.users| ensures s.users[a].id != s.users[b].id {
        var a' := if a < i then a else a + 1;
        var b' := if b < i then b else b + 1;
        assert s.users[a] == users[a'] && s.users[b] == users[b'];
      }
    }
  }

  /** With distinct ids, a deleted id is gone for good. */
  lemma {:induction false} DeletedIdIsGone(users: seq<User>, userId: string)
    requires UniqueIds(users) && ValidateUUID(userId)
    ensures Lookup(Delete(users, userId).users, userId) == Failure(UserNotFoundError)
  {
    var s := Delete(users, userId);
    if s.result.Success? {
      var i := Locate(users, userId).value;
      forall j | 0 <= j < |s.users| ensures s.users[j].id != userId {
        var j' := if j < i then j else j + 1;
        assert s.users[j] == users[j'];
      }
    }
  }

  /** The store itself: the private `store` array is the field `users`. */
  class Store {
    var users: seq<User>

    constructor (initial: seq<User>)
      ensures users == initial
    {
      users := initial;
    }

    /** `getAll` (the model returns the records as a value). */
    method GetAll() returns (r: seq<User>)
      ensures r == users
    {
      r := users;
    }

    /** `findUserIndexByUserId`, with the linear search of `findIndex`. */
    method FindUserIndexByUserId(userId: string) returns (r: Result<nat, Error>)
      ensures r == Locate(users, userId)
      ensures r.Success? ==> r.value < |users| && users[r.value].id == userId
    {
      if !ValidateUUID(userId) {
        return Failure(InvalidUUIDError);
      }
      var i := 0;
      while i < |users|
        invariant 0 <= i <= |users|
        invariant forall j :: 0 <= j < i ==> users[j].id != userId
      {
        if users[i].id == userId {
          return Success(i);
        }
        i := i + 1;
      }
      return Failure(UserNotFoundError);
    }

    method GetUserById(userId: string) returns (r: Result<User, Error>)
      ensures r == Lookup(users, userId)
    {
      var idx := FindUserIndexByUserId(userId);
      if idx.Failure? {
        return Failure(idx.error);
      }
      r := Success(users[idx.value]);
    }

    /** `createUser`, with `newId` the value `generateUUID` returns. */
    method CreateUser(dto: Json, newId: string) returns (r: Result<User, Error>)
      modifies this
      ensures Step(r, users) == Create(old(users), dto, newId)
    {
      if !ValidateUserDto(dto) {
        return Failure(InvalidUserDataError);
      }
      var u := User(newId, dto.fields);
      users := users + [u];
      r := Success(u);
    }

    method UpdateUser(userId: string, dto: Json) returns (r: Result<User, Error>)
      modifies this
      ensures Step(r, users) == Update(old(users), userId, dto)
    {
      if !ValidateUserDto(dto) {
        return Failure(InvalidUserDataError);
      }
      var idx := FindUserIndexByUserId(userId);
      if idx.Failure? {
        return Failure(idx.error);
      }
      var user := users[idx.value];
      var updated := User(user.id, user.payload + dto.fields);
      users := users[idx.value := updated];
      r := Success(updated);
    }

    method DeleteUser(userId: string) returns (r: Result<(), Error>)
      modifies this
      ensures Step(r, users) == Delete(old(users), userId)
    {
      var idx := FindUserIndexByUserId(userId);
      if idx.Failure? {
        return Failure(idx.error);
      }
      users := users[..idx.value] + users[idx.value + 1..];
      r := Success(());
    }
  }
}
