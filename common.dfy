/** Values shared by every part of the backend model: optional and fallible
    results, the JSON-like values stored in the document database, and the
    HTTP errors that handlers raise. */
module Common {

  datatype Option<+T> = None | Some(value: T)

  datatype Result<+T, +E> = Ok(value: T) | Err(error: E)

  /** A value inside a stored document or a token's claim set.
      `Time` is an instant (a `datetime`), treated as an opaque integer;
      `Oid` is an ObjectId, written as its hexadecimal text. */
  datatype Value =
    | Null
    | Bool(b: bool)
    | Int(i: int)
    | Str(s: string)
    | Time(t: int)
    | Oid(hex: string)
    | List(items: seq<Value>)
    | Object(fields: map<string, Value>)

  /** A document of a collection, or a dict the handlers build. */
  type Document = map<string, Value>

  /** An `HTTPException`: status code and detail message. */
  datatype HttpError = HttpError(status: int, detail: string)

  /** The text of an ObjectId: `str(ObjectId(...))` is 24 lower-case hex digits. */
  type ObjectId = string

  predicate IsObjectIdHex(s: string)
  {
    |s| == 24 && forall i :: 0 <= i < |s| ==> s[i] in "0123456789abcdef"
  }
}
