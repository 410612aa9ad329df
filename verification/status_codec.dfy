/** The JSON codec shared by the two lifecycle enumerations, TaskStatus and
    ContainerStatus. The two decoders differ only in their error messages;
    the enumeration itself (its sentinel, its Stopped state, its name table and
    its `String()` method) is a parameter. */
module StatusCodec {
  import opened JsonValues
  import opened Text

  /** Which of the two lifecycle enumerations a decoder serves. */
  datatype StatusKind = TaskStatusKind | ContainerStatusKind

  /** What a status decoder knows of its enumeration: the `...StatusNone`
      sentinel, the `...Stopped` state and the canonical name table
      (`taskStatusMap` or `containerStatusMap`). */
  datatype StatusEnum<S> = StatusEnum(none: S, stopped: S, byName: map<string, S>)

  /** Names written by agent version 1.0.0 state files, read but never written. */
  const LegacyUnknown: string := "UNKNOWN"
  const LegacyDead: string := "DEAD"

  predicate IsLegacyName(name: string) {
    name == LegacyUnknown || name == LegacyDead
  }

  /** The error for input that is neither `null` nor quoted. */
  function NotStringError(kind: StatusKind, b: string): Error {
    match kind
    case TaskStatusKind => Message("TaskStatus must be a string or null")
    case ContainerStatusKind => Message("ContainerStatus must be a string or null; Got " + b)
  }

  /** The error for a quoted name that is neither legacy nor in the table. */
  function UnrecognizedError(kind: StatusKind): Error {
    match kind
    case TaskStatusKind => Message("Unrecognized TaskStatus")
    case ContainerStatusKind => Message("Unrecognized ContainerStatus")
  }

  /** `UnmarshalJSON` of either status enumeration. The receiver is assigned on
      every path that returns, so the prior value plays no part. Go panics on
      the empty input (`b[0]`) and on the single byte `"` (`b[1:0]`). */
  function UnmarshalStatus<S>(kind: StatusKind, e: StatusEnum<S>, b: string): (r: Call<S>)
    ensures r.Panicked? <==> b == [] || b == "\""
    ensures r.Returned? ==>
      || r.receiver == e.none
      || r.receiver == e.stopped
      || exists name :: name in e.byName && r.receiver == e.byName[name]
    ensures r.Returned? && r.err.Some? ==> r.receiver == e.none
  {
    if IsNullLiteral(b) then Returned(e.none, None)
    else if |b| == 0 then Panicked
    else if b[0] != '"' || b[|b| - 1] != '"' then Returned(e.none, Some(NotStringError(kind, b)))
    else if |b| == 1 then Panicked
    else
      var name := b[1..|b| - 1];
      if name == LegacyUnknown then Returned(e.none, None)
      else if name == LegacyDead then Returned(e.stopped, None)
      else if name in e.byName then Returned(e.byName[name], None)
      else Returned(e.none, Some(UnrecognizedError(kind)))
  }

  /** `TaskStatus.UnmarshalJSON`. */
  function UnmarshalTaskStatus<S>(e: StatusEnum<S>, b: string): (r: Call<S>)
    ensures r.Returned? && r.err.Some? ==>
      r.err.value in {Message("TaskStatus must be a string or null"), Message("Unrecognized TaskStatus")}
  {
    UnmarshalStatus(TaskStatusKind, e, b)
  }

  /** `ContainerStatus.UnmarshalJSON`; its shape error quotes the input. */
  function UnmarshalContainerStatus<S>(e: StatusEnum<S>, b: string): (r: Call<S>)
    ensures r.Returned? && r.err.Some? ==>
      r.err.value in {Message("ContainerStatus must be a string or null; Got " + b), Message("Unrecognized ContainerStatus")}
  {
    UnmarshalStatus(ContainerStatusKind, e, b)
  }

  /** `MarshalJSON` of either status enumeration, given its `String()`; `None`
      is the nil receiver, which encodes to no bytes at all. */
  function MarshalStatus<S>(name: S -> string, s: Option<S>): (r: string)
    ensures s.None? ==> r == []
    ensures s.Some? ==> |r| >= 2 && r[0] == '"' && r[|r| - 1] == '"' && r[1..|r| - 1] == name(s.value)
  {
    match s
    case None => []
    case Some(v) => Quote(name(v))
  }

  /** `null` in any letter case decodes to the sentinel without error. */
  lemma NullDecodesToNone<S>(kind: StatusKind, e: StatusEnum<S>, b: string)
    requires IsNullLiteral(b)
    ensures UnmarshalStatus(kind, e, b) == Returned(e.none, None)
  {
  }

  /** Input that is not `null` and does not both start and end with a quote
      decodes to the sentinel with the shape error (or panics when empty). */
  lemma UnquotedDecodesToNoneWithError<S>(kind: StatusKind, e: StatusEnum<S>, b: string)
    requires !IsNullLiteral(b) && b != []
    requires b[0] != '"' || b[|b| - 1] != '"'
    ensures UnmarshalStatus(kind, e, b) == Returned(e.none, Some(NotStringError(kind, b)))
  {
  }

  /** The legacy names win over the table, whatever the table maps them to. */
  lemma LegacyNamesDecodeFirst<S>(kind: StatusKind, e: StatusEnum<S>)
    ensures UnmarshalStatus(kind, e, Quote(LegacyUnknown)) == Returned(e.none, None)
    ensures UnmarshalStatus(kind, e, Quote(LegacyDead)) == Returned(e.stopped, None)
  {
  }

  /** A quoted non-legacy name decodes to its table entry, or to the sentinel
      with the "unrecognized" error when the table lacks it. */
  lemma QuotedNameDecodesByTable<S>(kind: StatusKind, e: StatusEnum<S>, name: string)
    requires !IsLegacyName(name)
    ensures name in e.byName ==> UnmarshalStatus(kind, e, Quote(name)) == Returned(e.byName[name], None)
    ensures name !in e.byName ==> UnmarshalStatus(kind, e, Quote(name)) == Returned(e.none, Some(UnrecognizedError(kind)))
  {
  }

  /** The inputs a status decoder accepts without error: a spelling of
      `null`, or the quoted form of a legacy or table name. */
  ghost predicate AcceptedStatus<S>(e: StatusEnum<S>, b: string) {
    || IsNullLiteral(b)
    || exists name :: b == Quote(name) && (IsLegacyName(name) || name in e.byName)
  }

  /** A status decode reports no error exactly on the accepted inputs. */
  lemma StatusErrorFreeIffAccepted<S>(kind: StatusKind, e: StatusEnum<S>, b: string)
    ensures UnmarshalStatus(kind, e, b).Ok() <==> AcceptedStatus(e, b)
  {
    if IsNullLiteral(b) {
      return;
    }
    if |b| >= 2 && b[0] == '"' && b[|b| - 1] == '"' {
      var middle := b[1..|b| - 1];
      QuoteOfMiddle(b);
      QuotedIsNotNull(middle);
      if IsLegacyName(middle) || middle in e.byName {
        assert UnmarshalStatus(kind, e, b).Ok();
      } else {
        assert !UnmarshalStatus(kind, e, b).Ok();
        forall name | b == Quote(name)
          ensures !IsLegacyName(name) && name !in e.byName
        {
          assert name == middle;
        }
      }
    } else {
      assert !UnmarshalStatus(kind, e, b).Ok();
      forall name | b == Quote(name)
        ensures false
      {
      }
    }
  }

  /** Whatever `String()` returns, the encoding of a non-nil status never
      takes the decoder's panic or "must be a string or null" path: it either
      decodes cleanly or is merely an unrecognized name. */
  lemma MarshalledStatusIsWellShaped<S>(kind: StatusKind, e: StatusEnum<S>, name: S -> string, s: S)
    ensures UnmarshalStatus(kind, e, MarshalStatus(name, Some(s))).Returned?
    ensures UnmarshalStatus(kind, e, MarshalStatus(name, Some(s))).err in {None, Some(UnrecognizedError(kind))}
  {
  }

  /** A status whose name is a non-legacy table key mapping back to it
      survives encode-then-decode. */
  lemma StatusRoundTrip<S>(kind: StatusKind, e: StatusEnum<S>, name: S -> string, s: S)
    requires name(s) in e.byName && e.byName[name(s)] == s
    requires !IsLegacyName(name(s))
    ensures UnmarshalStatus(kind, e, MarshalStatus(name, Some(s))) == Returned(s, None)
  {
  }

  /** The nil receiver's encoding (no bytes) is an input the decoder cannot
      handle: it panics on it. */
  lemma NilStatusEncodingPanicsDecoder<S>(kind: StatusKind, e: StatusEnum<S>, name: S -> string)
    ensures UnmarshalStatus(kind, e, MarshalStatus(name, None)).Panicked?
  {
  }
}
