/** User payloads and records: `validateUserDto` (src/helpers/users.ts) and
    the `User`/`UserDto` shapes of src/types/users.ts. */
module Users {
  import opened Wrappers
  import opened Json

  /** `Array.isArray(v) && v.every((hobby) => typeof hobby === 'string')`. */
  predicate IsStringArray(v: Json)
  {
    v.JArray? && forall i :: 0 <= i < |v.items| ==> v.items[i].JString?
  }

  /** `validateUserDto`: an object with own `username` (a string), own `age`
      (a number) and own `hobbies` (an array of strings).  Other keys are
      allowed. */
  predicate ValidateUserDto(v: Json)
  {
    && IsObjectLike(v)
    && HasKey(v, "username") && v.fields["username"].JString?
    && HasKey(v, "age") && v.fields["age"].JNumber?
    && HasKey(v, "hobbies") && IsStringArray(v.fields["hobbies"])
  }

  /** `UserDto` of src/types/users.ts, as typed values. */
  datatype UserDto = UserDto(username: string, age: int, hobbies: seq<string>)

  function StringsJson(ss: seq<string>): (r: seq<Json>)
    ensures |r| == |ss| && forall i :: 0 <= i < |ss| ==> r[i] == JString(ss[i])
  {
    seq(|ss|, i requires 0 <= i < |ss| => JString(ss[i]))
  }

  /** The three own keys a `UserDto` has once it is JSON. */
  function DtoFields(d: UserDto): map<string, Json>
  {
    map["username" := JString(d.username), "age" := JNumber(d.age), "hobbies" := JArray(StringsJson(d.hobbies))]
  }

  /** Reads the typed `UserDto` out of an accepted payload. */
  function DecodeDto(v: Json): (r: Option<UserDto>)
    ensures r.Some? <==> ValidateUserDto(v)
  {
    if ValidateUserDto(v) then
      var items := v.fields["hobbies"].items;
      Some(UserDto(v.fields["username"].s, v.fields["age"].n, seq(|items|, i requires 0 <= i < |items| => items[i].s)))
    else None
  }

  /** Every typed `UserDto`, with any other keys beside it (an `id` among
      them), is accepted and reads back as itself. */
  lemma AcceptsDtoWithExtraKeys(d: UserDto, extras: map<string, Json>)
    ensures ValidateUserDto(JObject(extras + DtoFields(d)))
    ensures DecodeDto(JObject(extras + DtoFields(d))) == Some(d)
  {
    var v := JObject(extras + DtoFields(d));
    var d' := DecodeDto(v).value;
    assert d'.hobbies == d.hobbies;
  }

  /** Conversely, every accepted payload is a typed `UserDto` plus other
      keys: its own fields already hold the three fields of its reading. */
  lemma AcceptedIsDtoWithExtraKeys(v: Json)
    requires ValidateUserDto(v)
    ensures SubMap(DtoFields(DecodeDto(v).value), v.fields)
    ensures v == JObject(v.fields + DtoFields(DecodeDto(v).value))
  {
    var d := DecodeDto(v).value;
    var items := v.fields["hobbies"].items;
    assert StringsJson(d.hobbies) == items;
    assert v.fields + DtoFields(d) == v.fields;
  }

  /** Null and every value that is not an object or array is rejected. */
  lemma RejectsNonObjects(v: Json)
    requires !v.JObject?
    ensures !ValidateUserDto(v)
  {
  }

  /** An empty `hobbies` array is accepted; a payload without `hobbies`, or
      one with only `age`, is rejected. */
  lemma PayloadExamples(name: string, age: int)
    ensures ValidateUserDto(JObject(map["username" := JString(name), "age" := JNumber(age), "hobbies" := JArray([])]))
    ensures !ValidateUserDto(JObject(map["username" := JString(name), "age" := JNumber(age)]))
    ensures !ValidateUserDto(JObject(map["age" := JNumber(age)]))
  {
  }

  /** A stored record (`User`): the id the store assigned and the payload
      the record was built from.  A `id` key in the payload is hidden by the
      assigned id. */
  datatype User = User(id: string, payload: map<string, Json>)

  /** The record's own properties. */
  function UserFields(u: User): (f: map<string, Json>)
    ensures "id" in f && f["id"] == JString(u.id)
    ensures forall k :: k in u.payload && k != "id" ==> k in f && f[k] == u.payload[k]
  {
    u.payload["id" := JString(u.id)]
  }

  function UserJson(u: User): Json
  {
    JObject(UserFields(u))
  }
}
