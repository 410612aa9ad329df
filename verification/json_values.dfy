/** Values shared by every codec: optional values, results, the errors the
    decoders return, an abstract JSON document, and the outcome of one call to
    a Go `UnmarshalJSON` method. */
module JsonValues {

  /** Go's nil-or-value: a nil error, a nil pointer, a missing map entry. */
  datatype Option<+T> = None | Some(value: T)

  /** The `(value, error)` pair of a Go call that fails closed. */
  datatype Result<+R> = Success(value: R) | Failure(error: Error)

  /** An error value as the decoders return it. */
  datatype Error =
      /** `errors.New(text)` */
    | Message(text: string)
      /** encoding/json refusing a JSON value for a Go type of the given name */
    | TypeMismatch(target: string)
      /** `utils.NewMultiError(errs...)`; a nil argument is kept as `None` */
    | MultiError(errs: seq<Option<Error>>)

  /** A JSON value as encoding/json hands it to a custom decoder: already
      lexed and syntactically valid. Numbers keep their literal text; an
      object is the key-to-value mapping encoding/json builds from it. */
  datatype Json =
    | JNull
    | JBool(b: bool)
    | JNumber(literal: string)
    | JString(s: string)
    | JArray(items: seq<Json>)
    | JObject(fields: map<string, Json>)

  /** What one call `recv.UnmarshalJSON(b)` leaves behind: the receiver's value
      after the call together with the returned error, or a runtime panic. */
  datatype Call<+T> = Returned(receiver: T, err: Option<Error>) | Panicked {

    /** The call returned and reported no error. */
    predicate Ok() {
      Returned? && err.None?
    }
  }

  /** json.Unmarshal into a fresh Go `string`: a JSON string yields its
      contents, `null` leaves the variable at its zero value, anything else is
      a type error. */
  function UnmarshalString(j: Json): (r: Result<string>)
    ensures r.Success? <==> j.JString? || j.JNull?
    ensures j.JString? ==> r == Success(j.s)
    ensures j.JNull? ==> r == Success("")
  {
    match j
    case JString(s) => Success(s)
    case JNull => Success("")
    case _ => Failure(TypeMismatch("string"))
  }
}
