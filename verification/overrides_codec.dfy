/** The decoder of ContainerOverrides, which accepts the record either as a
    JSON object or as a JSON string whose contents are such an object, and in
    both shapes refuses keys the record does not have. The record type and
    its collaborators (the plain struct decoder, the completeness check and
    the JSON text parser) are parameters. */
module OverridesCodec {
  import opened JsonValues

  /** The collaborators of the decoder, for a record type `O`. */
  datatype Collaborators<!O> = Collaborators(
    /** json.Unmarshal into a fresh `ContainerOverridesCopy` (no custom decoder) */
    decodeObject: Json -> Result<O>,
    /** `utils.CompleteJsonUnmarshal`: `None` when every key of the input was bound */
    complete: (Json, O) -> Option<Error>,
    /** the parse json.Unmarshal makes of the bytes of a Go string */
    parse: string -> Result<Json>)

  const ObjectError: string := "Error unmarshalling ContainerOverrides"
  const NeitherShapeError: string := "Could not unmarshal ContainerOverrides into either an object or string respectively"
  const NoWayError: string := "Could not unmarshal ContainerOverrides in any supported way"

  /** `j` decodes as the typed record `o` and every key of `j` was bound. */
  ghost predicate Accepts<O>(c: Collaborators<O>, j: Json, o: O) {
    c.decodeObject(j) == Success(o) && c.complete(j, o) == None
  }

  /** `b` is a string (or null, read as the empty string) whose contents parse
      to a JSON value that the typed decode accepts as `o`. */
  ghost predicate AcceptsWrapped<O>(c: Collaborators<O>, b: Json, o: O) {
    && UnmarshalString(b).Success?
    && c.parse(UnmarshalString(b).value).Success?
    && Accepts(c, c.parse(UnmarshalString(b).value).value, o)
  }

  /** One typed attempt: the struct decode, then the completeness check, whose
      failure is wrapped under `ObjectError`. */
  function DecodeTyped<O(!new)>(c: Collaborators<O>, j: Json): (r: Result<O>)
    ensures r.Success? ==> Accepts(c, j, r.value)
    ensures forall o :: Accepts(c, j, o) ==> r == Success(o)
    ensures c.decodeObject(j).Failure? ==> r == c.decodeObject(j)
    ensures c.decodeObject(j).Success? && c.complete(j, c.decodeObject(j).value).Some? ==>
      r == Failure(MultiError([Some(Message(ObjectError)), c.complete(j, c.decodeObject(j).value)]))
  {
    match c.decodeObject(j)
    case Failure(e) => Failure(e)
    case Success(o) =>
      match c.complete(j, o)
      case None => Success(o)
      case Some(e) => Failure(MultiError([Some(Message(ObjectError)), Some(e)]))
  }

  /** The typed attempt on the contents of a string: a parse failure is
      reported as it is, like a struct-decode failure. */
  function DecodeWrapped<O(!new)>(c: Collaborators<O>, text: string): (r: Result<O>)
    ensures c.parse(text).Failure? ==> r == Failure(c.parse(text).error)
    ensures c.parse(text).Success? ==>
      var j := c.parse(text).value;
      && (r.Success? ==> Accepts(c, j, r.value))
      && (forall o :: Accepts(c, j, o) ==> r == Success(o))
      && (c.decodeObject(j).Failure? ==> r == c.decodeObject(j))
      && (c.decodeObject(j).Success? && c.complete(j, c.decodeObject(j).value).Some? ==>
            r == Failure(MultiError([Some(Message(ObjectError)), c.complete(j, c.decodeObject(j).value)])))
  {
    match c.parse(text)
    case Failure(e) => Failure(e)
    case Success(j) => DecodeTyped(c, j)
  }

  /** `ContainerOverrides.UnmarshalJSON` on a receiver holding `prior`. */
  function UnmarshalContainerOverrides<O(!new)>(c: Collaborators<O>, prior: O, b: Json): (r: Call<O>)
    ensures r.Returned?
    ensures forall o :: Accepts(c, b, o) ==> r == Returned(o, None)
    ensures r.err.None? ==> Accepts(c, b, r.receiver) || AcceptsWrapped(c, b, r.receiver)
    ensures (exists o :: Accepts(c, b, o) || AcceptsWrapped(c, b, o)) ==> r.err.None?
    ensures r.err.Some? ==> r.receiver == prior
  {
    var direct := DecodeTyped(c, b);
    if direct.Success? then Returned(direct.value, None)
    else
      match UnmarshalString(b)
      case Failure(err2) =>
        Returned(prior, Some(MultiError([Some(Message(NeitherShapeError)), Some(direct.error), Some(err2)])))
      case Success(str) =>
        var wrapped := DecodeWrapped(c, str);
        if wrapped.Success? then Returned(wrapped.value, None)
        else Returned(prior, Some(MultiError([Some(Message(NoWayError)), Some(direct.error), None, Some(wrapped.error)])))
  }

  /** Input that is neither an accepted object nor a string fails with the
      three-part error: the headline, the typed attempt's failure and the
      string attempt's failure. */
  lemma NonStringFailureAggregatesBoth<O(!new)>(c: Collaborators<O>, prior: O, b: Json)
    requires !b.JString? && !b.JNull?
    requires forall o :: !Accepts(c, b, o)
    ensures UnmarshalContainerOverrides(c, prior, b) ==
      Returned(prior, Some(MultiError([Some(Message(NeitherShapeError)), Some(DecodeTyped(c, b).error), Some(TypeMismatch("string"))])))
  {
  }

  /** A string (or `null`, read as the empty string) whose contents are
      rejected fails with the four-part error, whose third entry is the nil
      error of the successful string step. */
  lemma WrappedFailureAggregatesAll<O(!new)>(c: Collaborators<O>, prior: O, b: Json)
    requires UnmarshalString(b).Success?
    requires forall o :: !Accepts(c, b, o)
    requires DecodeWrapped(c, UnmarshalString(b).value).Failure?
    ensures UnmarshalContainerOverrides(c, prior, b) ==
      Returned(prior, Some(MultiError([
        Some(Message(NoWayError)),
        Some(DecodeTyped(c, b).error),
        None,
        Some(DecodeWrapped(c, UnmarshalString(b).value).error)])))
  {
  }

  /** An object with a key outside the schema is never silently accepted:
      the decode fails and the receiver keeps its value. */
  lemma UnknownKeyRejected<O(!new)>(c: Collaborators<O>, prior: O, b: Json)
    requires b.JObject?
    requires forall o :: c.complete(b, o).Some?
    ensures UnmarshalContainerOverrides(c, prior, b) == Returned(prior, UnmarshalContainerOverrides(c, prior, b).err)
    ensures UnmarshalContainerOverrides(c, prior, b).err.Some?
  {
  }

  /** The legacy string-wrapped form of an object decodes to the same record
      as the object itself, provided the struct decoder rejects a bare string
      (as encoding/json does for a struct). */
  lemma WrappedObjectDecodesAlike<O(!new)>(c: Collaborators<O>, prior: O, text: string, j: Json, o: O)
    requires c.parse(text) == Success(j)
    requires c.decodeObject(JString(text)).Failure?
    requires Accepts(c, j, o)
    ensures UnmarshalContainerOverrides(c, prior, JString(text)) == Returned(o, None)
    ensures UnmarshalContainerOverrides(c, prior, j) == Returned(o, None)
  {
  }
}
