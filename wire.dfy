/**
 * JSON documents and the rules by which Go's `encoding/json` decodes one of them into a
 * Go variable, as far as the filters depend on them, plus the ordered trial of several
 * target shapes that every `UnmarshalJSON` of the library performs.
 */
module Wire {
  import opened Base

  /** A well-formed JSON document. Numbers are integer literals. */
  datatype Json =
    | Null
    | Bool(b: bool)
    | Num(n: int)
    | Str(s: string)
    | Arr(items: seq<Json>)
    | Obj(fields: map<string, Json>)

  /** The bytes handed to `UnmarshalJSON`: either not JSON at all, or a document. */
  datatype Input = Malformed | Doc(json: Json)

  /** Decoding a non-null JSON value into a Go `bool`; `None` is a type error. */
  function AsBool(j: Json): Option<bool> {
    if j.Bool? then Some(j.b) else None
  }

  /** Into a Go `string`. */
  function AsString(j: Json): Option<string> {
    if j.Str? then Some(j.s) else None
  }

  /** Into a Go `int`: a number outside the 64-bit range is a type error. */
  function AsInt64(j: Json): Option<Int64> {
    if j.Num? && IsInt64(j.n) then Some(j.n as Int64) else None
  }

  /** Into a Go `[]interface{}`. */
  function AsArray(j: Json): Option<seq<Json>> {
    if j.Arr? then Some(j.items) else None
  }

  /** Into a Go `interface{}`: every value fits. */
  function AsAny(j: Json): Option<Json> {
    Some(j)
  }

  /**
   * Decoding into a freshly zeroed Go variable of a non-pointer type: `null` leaves the
   * zero value in place, anything else goes through `conv`.
   */
  function Fresh<T>(j: Json, conv: Json -> Option<T>, zero: T): (r: Option<T>)
    ensures j.Null? ==> r == Some(zero)
    ensures !j.Null? ==> r == conv(j)
  {
    if j.Null? then Some(zero) else conv(j)
  }

  /** Decoding into a freshly zeroed Go pointer `*T`: `null` leaves it nil. */
  function FreshPtr<T>(j: Json, conv: Json -> Option<T>): (r: Option<Option<T>>)
    ensures j.Null? ==> r == Some(None)
    ensures !j.Null? ==> (r.Some? <==> conv(j).Some?)
    ensures r.Some? && !j.Null? ==> r.value == conv(j)
  {
    if j.Null? then Some(None)
    else match conv(j)
      case None => None
      case Some(v) => Some(Some(v))
  }

  /** A field of a freshly zeroed struct: an absent key decodes like `null`. */
  function Field(fields: map<string, Json>, key: string): Json {
    if key in fields then fields[key] else Null
  }

  /**
   * Decoding into a freshly zeroed Go struct: `null` leaves every field zero, an object is
   * decoded field by field by `conv`, any other value is a type error.
   */
  function FreshStruct<T>(j: Json, conv: map<string, Json> -> Option<T>, zero: T): (r: Option<T>)
    ensures j.Null? ==> r == Some(zero)
    ensures j.Obj? ==> r == conv(j.fields)
    ensures !j.Null? && !j.Obj? ==> r.None?
  {
    match j
    case Null => Some(zero)
    case Obj(fields) => conv(fields)
    case _ => None
  }

  /**
   * The flexible decoder: the first of an ordered list of decode attempts that succeeds,
   * with its position (the shape tag).
   */
  function FirstSome<T>(attempts: seq<Option<T>>): (r: Option<(nat, T)>)
    ensures r.Some? ==> r.value.0 < |attempts| && attempts[r.value.0] == Some(r.value.1)
    ensures r.Some? ==> forall k :: 0 <= k < r.value.0 ==> attempts[k].None?
    ensures r.None? <==> forall k :: 0 <= k < |attempts| ==> attempts[k].None?
  {
    if attempts == [] then None
    else if attempts[0].Some? then Some((0, attempts[0].value))
    else match FirstSome(attempts[1..])
      case None => None
      case Some(found) => Some((found.0 + 1, found.1))
  }
}
