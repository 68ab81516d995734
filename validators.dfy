/** The runtime type guards of src/helpers/validators.ts. */
module Validators {
  import opened Wrappers
  import opened Json
  import opened HttpTypes
  import opened Errors
  import opened WorkerTypes
  import Users
  import Uuid

  /** `isMemberOfStringEnum(enumObj, value)`, with `Object.values(enumObj)`
      given as `values`. */
  predicate IsMemberOfStringEnum(values: set<string>, v: Json)
  {
    v.JString? && v.s in values
  }

  /** `isHTTPStatusCode`: `Object.values` of the numeric enum also lists the
      member names, but only numbers pass `typeof value === 'number'`. */
  predicate IsHTTPStatusCode(v: Json)
  {
    v.JNumber? && v.n in StatusCodes()
  }

  predicate IsWorkerMessage(v: Json)
  {
    && IsObjectLike(v)
    && HasKey(v, "method") && IsMemberOfStringEnum(MethodNames(), v.fields["method"])
    && HasKey(v, "endpoint") && v.fields["endpoint"].JString?
  }

  predicate IsResponseError(enums: StringEnums, v: Json)
  {
    && IsObjectLike(v)
    && HasKey(v, "statusCode") && IsHTTPStatusCode(v.fields["statusCode"])
    && HasKey(v, "type") && IsMemberOfStringEnum(enums.errorTypes, v.fields["type"])
    && HasKey(v, "message") && IsMemberOfStringEnum(enums.errorMessages, v.fields["message"])
  }

  predicate IsResponseSuccess(v: Json)
  {
    IsObjectLike(v) && HasKey(v, "statusCode") && IsHTTPStatusCode(v.fields["statusCode"])
  }

  predicate IsParentMessage(enums: StringEnums, v: Json)
  {
    && IsObjectLike(v)
    && HasKey(v, "result") && IsMemberOfStringEnum(ResultValues(), v.fields["result"])
    && HasKey(v, "response")
    && ((v.fields["result"] == JString(SuccessResult) && IsResponseSuccess(v.fields["response"]))
        || (v.fields["result"] == JString(ErrorResult) && IsResponseError(enums, v.fields["response"])))
  }

  /** `Object.prototype.hasOwnProperty.call(value, key)` on a parsed value:
      only an object's own keys; a parsed array has none of the keys asked
      for here. */
  predicate HasOwnProperty(v: Json, key: string)
  {
    v.JObject? && key in v.fields
  }

  /** `isUserDto`: its own copy of the conjunction, `in` and
      `hasOwnProperty` tested separately for each key. */
  predicate IsUserDto(v: Json)
  {
    && IsObjectLike(v)
    && HasKey(v, "username") && HasOwnProperty(v, "username") && v.fields["username"].JString?
    && HasKey(v, "age") && HasOwnProperty(v, "age") && v.fields["age"].JNumber?
    && HasKey(v, "hobbies") && HasOwnProperty(v, "hobbies") && v.fields["hobbies"].JArray?
    && (forall i :: 0 <= i < |v.fields["hobbies"].items| ==> v.fields["hobbies"].items[i].JString?)
  }

  /** `UUIDv4REGEX`, this file's own copy of the UUID pattern, read group by
      group: five runs of lower-case hex digits of lengths 8, 4, 4, 4 and
      12, joined by '-'. */
  predicate MatchesUuidV4Regex(s: string)
  {
    && |s| == 36
    && s[8] == '-' && s[13] == '-' && s[18] == '-' && s[23] == '-'
    && Uuid.AllHex(s[..8]) && Uuid.AllHex(s[9..13]) && Uuid.AllHex(s[14..18])
    && Uuid.AllHex(s[19..23]) && Uuid.AllHex(s[24..])
  }

  /** `isUserId`: only strings, tested against `UUIDv4REGEX`. */
  predicate IsUserId(v: Json)
  {
    v.JString? && MatchesUuidV4Regex(v.s)
  }

  /** The typed message `isWorkerMessage` lets `parseWorkerMessage` return. */
  function DecodeWorkerMessage(v: Json): (r: Option<WorkerMessage>)
    ensures r.Some? <==> IsWorkerMessage(v)
    ensures r.Some? ==>
      JString(MethodName(r.value.verb)) == v.fields["method"] && JString(r.value.endpoint) == v.fields["endpoint"]
  {
    if IsWorkerMessage(v) then
      var m := ParseMethod(v.fields["method"].s).value;
      Some(WorkerMessage(m, v.fields["endpoint"].s,
        if "userId" in v.fields then Some(v.fields["userId"]) else None,
        if "body" in v.fields then Some(v.fields["body"]) else None))
    else None
  }

  /** A success reply needs nothing but a valid status code: any other keys
      of its response object, `data` among them, go unchecked. */
  lemma SuccessNeedsOnlyStatus(enums: StringEnums, response: map<string, Json>, status: int)
    requires "statusCode" in response && response["statusCode"] == JNumber(status)
    ensures IsParentMessage(enums, JObject(map["result" := JString(SuccessResult), "response" := JObject(response)]))
        <==> status in StatusCodes()
  {
  }

  /** An accepted error reply has a valid status and a `type` and a
      `message` from their enums. */
  lemma ErrorNeedsTypeAndMessage(enums: StringEnums, v: Json)
    requires IsParentMessage(enums, v) && v.fields["result"] == JString(ErrorResult)
    ensures var r := v.fields["response"];
      HasKey(r, "statusCode") && IsHTTPStatusCode(r.fields["statusCode"])
      && HasKey(r, "type") && r.fields["type"].JString? && r.fields["type"].s in enums.errorTypes
      && HasKey(r, "message") && r.fields["message"].JString? && r.fields["message"].s in enums.errorMessages
  {
  }

  /** A `result` other than 'success' and 'error' is rejected. */
  lemma OtherResultRejected(enums: StringEnums, v: Json)
    requires HasKey(v, "result") && v.fields["result"] != JString(SuccessResult) && v.fields["result"] != JString(ErrorResult)
    ensures !IsParentMessage(enums, v)
  {
  }

  /** The replies the primary builds: a success reply passes exactly when
      its status is one of `HTTPStatusCode`; an error reply never passes,
      whatever the enums hold, because it has no `type`. */
  lemma {:induction false} RepliesAgainstIsParentMessage(enums: StringEnums, m: ParentMessage)
    ensures m.SuccessReply? ==> (IsParentMessage(enums, ParentMessageJson(m)) <==> m.statusCode in StatusCodes())
    ensures m.ErrorReply? ==> !IsParentMessage(enums, ParentMessageJson(m))
  {
    var j := ParentMessageJson(m);
    if m.SuccessReply? {
      assert j.fields["response"].fields["statusCode"] == JNumber(m.statusCode);
    }
  }

  /** The group-by-group reading of `UUIDv4REGEX` is the positional
      reading of the UUID pattern. */
  lemma {:induction false} UuidV4RegexShape(s: string)
    ensures MatchesUuidV4Regex(s) <==> Uuid.UuidShape(s)
  {
    if |s| == 36 {
      var groups := [s[..8], s[9..13], s[14..18], s[19..23], s[24..]];
      var starts := [0, 9, 14, 19, 24];
      forall g | 0 <= g < 5
        ensures forall i :: 0 <= i < |groups[g]| ==> groups[g][i] == s[starts[g] + i]
      {
      }
      if Uuid.UuidShape(s) {
        forall g | 0 <= g < 5
          ensures Uuid.AllHex(groups[g])
        {
          forall i | 0 <= i < |groups[g]|
            ensures Uuid.IsHexDigit(groups[g][i])
          {
            assert groups[g][i] == s[starts[g] + i];
            assert !Uuid.IsDashIndex(starts[g] + i);
          }
        }
        assert Uuid.AllHex(groups[0]) && Uuid.AllHex(groups[1]) && Uuid.AllHex(groups[2]);
        assert Uuid.AllHex(groups[3]) && Uuid.AllHex(groups[4]);
      }
      if MatchesUuidV4Regex(s) {
        forall i | 0 <= i < 36
          ensures if Uuid.IsDashIndex(i) then s[i] == '-' else Uuid.IsHexDigit(s[i])
        {
          if !Uuid.IsDashIndex(i) {
            var g := if i < 8 then 0 else if i < 13 then 1 else if i < 18 then 2 else if i < 23 then 3 else 4;
            assert Uuid.AllHex(groups[g]);
            assert s[i] == groups[g][i - starts[g]];
          }
        }
      }
    }
  }

  /** The two copies of each guard agree: `isUserId` is `validateUUID` on
      strings and false on every other value, and `isUserDto` accepts
      exactly what `validateUserDto` accepts. */
  lemma {:induction false} SharedGuards(v: Json)
    ensures IsUserId(v) <==> v.JString? && Uuid.ValidateUUID(v.s)
    ensures IsUserDto(v) <==> Users.ValidateUserDto(v)
  {
    if v.JString? {
      UuidV4RegexShape(v.s);
      Uuid.ValidateUUIDShape(v.s);
    }
  }

  /** Non-strings are never members of a string enum. */
  lemma EnumMembersAreStrings(values: set<string>, v: Json)
    requires !v.JString?
    ensures !IsMemberOfStringEnum(values, v)
  {
  }
}
