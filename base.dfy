/** Values shared by every route of the server: optional values, the
    response a handler sends, and the loosely typed JSON values found in
    request bodies together with JavaScript's notion of truthiness. */
module Base {

  datatype Option<+T> = None | Some(value: T) {
    function GetOr(default: T): T {
      match this
      case Some(v) => v
      case None => default
    }
  }

  /** What an Express handler sends: a success payload (status 200) or an
      error status with its message. */
  datatype Response<+T> = Ok(value: T) | Fail(status: int, message: string)

  /** A JSON value as it arrives in a request body. Numbers are integers
      here; NaN is not represented. */
  datatype Json =
    | Undefined
    | Null
    | Bool(b: bool)
    | Num(n: int)
    | Str(s: string)
    | Arr(items: seq<Json>)
    | Obj(fields: map<string, Json>)

  /** JavaScript truthiness: `undefined`, `null`, `false`, `0` and `""` are
      falsy; every array and object is truthy, even an empty one. */
  predicate Truthy(j: Json) {
    match j
    case Undefined => false
    case Null => false
    case Bool(b) => b
    case Num(n) => n != 0
    case Str(s) => s != ""
    case Arr(_) => true
    case Obj(_) => true
  }

  /** Truthiness of an optional string field (`undefined` or a string). */
  predicate Present(s: Option<string>) {
    s.Some? && s.value != ""
  }

  /** `r` is `s` with some elements left out and the others kept in their
      order: each element of `s` is either the next one of `r` or dropped. */
  ghost predicate KeptInOrder<T>(r: seq<T>, s: seq<T>)
    decreases |s|
  {
    if |s| == 0 then r == []
    else (|r| > 0 && r[0] == s[0] && KeptInOrder(r[1..], s[1..])) || KeptInOrder(r, s[1..])
  }

  /** An entry handed to `logActivity`: who acted, what they did, on which
      document, whether the admins are mailed, and the metadata. */
  datatype Activity = Activity(
    actorId: string,
    action: string,
    targetId: Option<string>,
    notifyAdmin: bool,
    metadata: map<string, Json>)
}
