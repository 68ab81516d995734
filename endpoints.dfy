/** `parseEndpoint` (src/helpers/endpoints.ts): the route classifier. */
module Endpoints {
  import opened Wrappers
  import opened HttpTypes
  import opened Errors

  const UsersPath: string := "/api/users"
  const UsersPrefix: string := "/api/users/"

  predicate NoSlash(s: string)
  {
    forall i :: 0 <= i < |s| ==> s[i] != '/'
  }

  /** `/^\/api\/users\/?$/`. */
  predicate IsUsersPath(path: string)
  {
    path == UsersPath || path == UsersPrefix
  }

  /** `/^\/api\/users\/[^/]+$/`. */
  predicate IsUserIdPath(path: string)
  {
    |path| > |UsersPrefix| && path[..|UsersPrefix|] == UsersPrefix && NoSlash(path[|UsersPrefix|..])
  }

  /** `s.match(/[^/]+$/)?.[0] ?? ''`: the leftmost, hence longest, run of
      characters other than '/' that ends `s`; '' when there is none. */
  function TrailingSegment(s: string): (r: string)
    decreases |s|
  {
    if |s| == 0 || s[|s| - 1] == '/' then ""
    else TrailingSegment(s[..|s| - 1]) + [s[|s| - 1]]
  }

  /** After a prefix that ends in '/', the trailing segment is everything
      that follows it, provided that holds no '/'. */
  lemma {:induction false} TrailingSegmentAfterSlash(prefix: string, s: string)
    requires |prefix| > 0 && prefix[|prefix| - 1] == '/' && NoSlash(s)
    ensures TrailingSegment(prefix + s) == s
    decreases |s|
  {
    if |s| == 0 {
      assert prefix + s == prefix;
    } else {
      var t := prefix + s;
      assert t[..|t| - 1] == prefix + s[..|s| - 1];
      TrailingSegmentAfterSlash(prefix, s[..|s| - 1]);
      assert s == s[..|s| - 1] + [s[|s| - 1]];
    }
  }

  function ParseEndpoint(path: string): (r: Result<EndpointData, Error>)
    ensures r.Success? <==> IsUsersPath(path) || IsUserIdPath(path)
    ensures r.Failure? ==> r.error == InvalidEndpointError
    ensures r.Success? && r.value.endpoint == Users <==> IsUsersPath(path)
    ensures r.Success? && r.value.endpoint == Users ==> r.value.userId == None
    ensures r.Success? && r.value.endpoint == UsersWithId ==>
      r.value.userId == Some(path[|UsersPrefix|..]) && r.value.userId.value != "" && NoSlash(r.value.userId.value)
  {
    if IsUsersPath(path) then
      Success(EndpointData(Users, None))
    else if IsUserIdPath(path) then
      TrailingSegmentAfterSlash(UsersPrefix, path[|UsersPrefix|..]);
      assert UsersPrefix + path[|UsersPrefix|..] == path;
      Success(EndpointData(UsersWithId, Some(TrailingSegment(path))))
    else
      Failure(InvalidEndpointError)
  }

  /** `/api/users/` followed by a non-empty id without '/' is the
      USERS_WITH_ID route with exactly that id; the id's format is not
      checked here. */
  lemma ParseUserIdPath(id: string)
    requires id != "" && NoSlash(id)
    ensures ParseEndpoint(UsersPrefix + id) == Success(EndpointData(UsersWithId, Some(id)))
  {
    var p := UsersPrefix + id;
    assert p[..|UsersPrefix|] == UsersPrefix && p[|UsersPrefix|..] == id;
  }

  /** The routes of the tests: `/not/exists` and `/api/users/a/b` are
      rejected, `/api/users/invalid` is accepted with id "invalid". */
  lemma RouteExamples()
    ensures ParseEndpoint("/not/exists") == Failure(InvalidEndpointError)
    ensures ParseEndpoint("/api/users/a/b") == Failure(InvalidEndpointError)
    ensures ParseEndpoint("/api/users/invalid") == Success(EndpointData(UsersWithId, Some("invalid")))
  {
    assert !IsUserIdPath("/not/exists") by {
      assert |"/not/exists"| == |UsersPrefix|;
    }
    assert !IsUserIdPath("/api/users/a/b") by {
      assert "/api/users/a/b"[|UsersPrefix|..][1] == '/';
    }
    ParseUserIdPath("invalid");
  }
}
