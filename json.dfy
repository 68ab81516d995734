/** JSON values as `JSON.parse` produces them, with the few JavaScript
    predicates the core applies to them. */
module Json {

  /** A parsed JSON value.  Objects are maps from own keys to values (key
      order is not modelled); numbers keep only an integer value, because
      the core only ever asks whether something is a number. */
  datatype Json =
    | JNull
    | JBool(b: bool)
    | JNumber(n: int)
    | JString(s: string)
    | JArray(items: seq<Json>)
    | JObject(fields: map<string, Json>)

  /** What `JSON.parse(text)` does with a text: returns a value, or throws a
      `SyntaxError` with an engine-chosen message. */
  datatype ParseOutcome = Parsed(value: Json) | SyntaxError(message: string)

  /** `value && typeof value === 'object'` on a parsed value: true exactly
      of objects and arrays (null is falsy, everything else is a primitive). */
  predicate IsObjectLike(v: Json)
  {
    v.JObject? || v.JArray?
  }

  /** `key in value` on a parsed object or array.  A parsed object's
      prototype is Object.prototype and an array's is Array.prototype;
      neither holds any of the keys the core looks up (`username`, `age`,
      `hobbies`, `method`, `endpoint`, `result`, `response`, `statusCode`,
      `type`, `message`), so only an object's own keys count. */
  predicate HasKey(v: Json, key: string)
  {
    v.JObject? && key in v.fields
  }

  /** JavaScript truthiness of a JSON value. */
  predicate Truthy(v: Json)
  {
    match v
    case JNull => false
    case JBool(b) => b
    case JNumber(n) => n != 0
    case JString(s) => s != ""
    case JArray(_) => true
    case JObject(_) => true
  }

  /** `a` is a sub-object of `b`: every own key of `a` is in `b` with the same value. */
  predicate SubMap(a: map<string, Json>, b: map<string, Json>)
  {
    forall k :: k in a ==> k in b && a[k] == b[k]
  }
}
