# ECS agent task-descriptor JSON codecs, modelled in Dafny

This project models the custom JSON codecs of the agent's task descriptor
(`agent/api/json.go`). There are four value types:

- **TaskStatus / ContainerStatus**: lifecycle enumerations. They decode case-insensitive
  `null` to the None sentinel. They accept the legacy v1.0.0 names `UNKNOWN` and `DEAD`
  before consulting the canonical name table. Every rejected input decodes to the sentinel
  together with an error.
- **TransportProtocol**: a TCP/UDP enumeration. TCP is the default. Only the exact bytes
  `"tcp"` and `"udp"`, and `null` in any letter case, decode without error.
- **ContainerOverrides**: a record accepted either as a JSON object or as a JSON string
  containing one. In both shapes it must pass a completeness check (no unknown keys), and
  failures are aggregated into a multi-error.
- **TaskVolume**: a name plus an untagged host volume. The variant is chosen by decoding
  `host` as a filesystem volume and looking at whether its source path is empty.

Every `UnmarshalJSON` is a pure function from the receiver's value before the call and the
input to a `Call<T>`. A `Call<T>` is either the receiver's value after the call with the
returned error, or `Panicked`. This makes "the receiver is left unassigned on failure"
something a contract can state.

Modules:

- `JsonValues` (`json_values.dfy`): `Option`, `Result`, `Error` (message, type mismatch,
  multi-error), the abstract `Json` value, `Call`, and json.Unmarshal into a Go string.
- `Text` (`text.dfy`): `strings.ToLower`, the case-insensitive `null` test, and quoting.
- `StatusCodec` (`status_codec.dfy`): both status enumerations, generic over the
  enumeration type. The sentinel, the Stopped state and the name table are parameters.
- `ProtocolCodec` (`protocol_codec.dfy`): TransportProtocol.
- `OverridesCodec` (`overrides_codec.dfy`): ContainerOverrides, generic over the record
  type. The struct decoder, the completeness check and the JSON text parser are parameters.
- `VolumeCodec` (`volume_codec.dfy`): TaskVolume. The two variants' struct codecs are
  parameters, and the empty volume's payload is a type parameter.

How inputs are represented:

- The enumeration decoders work on raw bytes, represented as a `string` with one character
  per byte.
- The overrides and volume decoders take an abstract `Json` value. encoding/json checks a
  whole document for syntactic validity before it calls a custom decoder, so these
  decoders only ever see well-formed values.

Two behaviours of the code worth noting:

- TransportProtocol decodes `null` to TCP with no error (json.go:202-205). Any other
  input that is not exactly `"tcp"` or `"udp"` gives TCP with an error, as the comment at
  json.go:198-200 describes.
- A nil TaskStatus/ContainerStatus encodes to no bytes at all (json.go:54-55). A nil
  TransportProtocol encodes to `null` (json.go:220-221).

The status decoders index `b[0]` and slice `b[1:len(b)-1]` (json.go:29,33, 65,69). On the
empty input and on the single byte `"` this panics in Go. The model has an explicit
`Panicked` outcome for it rather than a precondition. `UnmarshalStatus` states that it
panics on exactly those two inputs. `NilStatusEncodingPanicsDecoder` shows that the nil
receiver's own encoding (no bytes) is one of them. encoding/json never passes either input
to a decoder.

## Model

| member | source | states |
|---|---|---|
| Text.ToLower | agent/api/json.go:25 | the lowered text has the input's length and holds, at each position, the lower-case form of the input's character there |
| Text.NullLiteralSpellings | agent/api/json.go:25 | the case-insensitive comparison with `null` accepts exactly the four-byte inputs spelling n,u,l,l in either case per letter |
| Text.Quote | agent/api/json.go:57 | the quoted form of a name is two bytes longer, starts and ends with `"`, and its middle is exactly the name, so the decoders' slice recovers it |
| Text.QuoteOfMiddle | agent/api/json.go:29-33 | an input at least two bytes long that starts and ends with `"` is exactly the quoted form of the middle the decoder slices out |
| StatusCodec.UnmarshalStatus | agent/api/json.go:24-50 | the decoder panics exactly on the empty input and the lone `"`; otherwise the receiver is the sentinel, Stopped, or a value of the name table; an error always comes with the sentinel |
| StatusCodec.UnmarshalTaskStatus | agent/api/json.go:24-51 | TaskStatus reports only "must be a string or null" or "Unrecognized TaskStatus" |
| StatusCodec.UnmarshalContainerStatus | agent/api/json.go:60-87 | ContainerStatus reports only "Unrecognized ContainerStatus" or the shape error that quotes the raw input |
| StatusCodec.MarshalStatus | agent/api/json.go:53-58 | a nil status encodes to no bytes; a status encodes to its `String()` between two quote bytes, which a decoder's slice recovers exactly |
| StatusCodec.NullDecodesToNone | agent/api/json.go:25-28 | any letter-case spelling of `null` decodes to the sentinel without error |
| StatusCodec.UnquotedDecodesToNoneWithError | agent/api/json.go:29-32 | non-empty input that is not `null` and does not both start and end with `"` gives the sentinel with the shape error |
| StatusCodec.LegacyNamesDecodeFirst | agent/api/json.go:34-42 | quoted `UNKNOWN` is the sentinel and quoted `DEAD` is Stopped, both without error, whatever the name table maps those names to |
| StatusCodec.QuotedNameDecodesByTable | agent/api/json.go:44-50 | a quoted non-legacy name decodes to its table value without error, or to the sentinel with the unrecognized error when the table lacks it |
| StatusCodec.StatusErrorFreeIffAccepted | agent/api/json.go:24-51 | a status decode reports no error if and only if the input spells `null` or quotes a legacy name or a table key |
| StatusCodec.MarshalledStatusIsWellShaped | agent/api/json.go:53-58 | whatever `String()` returns, decoding an encoded status never panics and never reports the shape error |
| StatusCodec.StatusRoundTrip | agent/api/json.go:44-57 | a status whose name is a non-legacy table key mapping back to it decodes from its own encoding to itself without error |
| StatusCodec.NilStatusEncodingPanicsDecoder | agent/api/json.go:53-56 | the nil receiver's encoding is an input on which the decoder panics |
| ProtocolCodec.UnmarshalTransportProtocol | agent/api/json.go:201-217 | never panics; the result is UDP exactly for the bytes `"udp"`; no error exactly for `null` in any case, `"tcp"` or `"udp"`; every error message ends with the raw input |
| ProtocolCodec.MarshalTransportProtocol | agent/api/json.go:219-224 | a nil protocol encodes to `null`; a protocol encodes to its `String()` between quote bytes |
| ProtocolCodec.ProtocolRoundTrip | agent/api/json.go:201-224 | with the names `tcp` and `udp`, each protocol decodes from its own encoding to itself, and the nil encoding decodes to TCP, all without error |
| ProtocolCodec.ProtocolNameIsCaseSensitive | agent/api/json.go:202-214 | `"UDP"` decodes to TCP with an error, while `NULL` decodes to TCP without one |
| JsonValues.UnmarshalString | agent/api/json.go:122-123 | reading a Go string succeeds exactly on a JSON string, giving its contents, or on `null`, giving the empty string that is then parsed |
| OverridesCodec.DecodeTyped | agent/api/json.go:110-119 | one typed attempt succeeds exactly when the struct decode yields a record the completeness check passes, and then yields that record; a struct-decode error passes through unchanged, and a completeness error is wrapped after the "Error unmarshalling ContainerOverrides" headline |
| OverridesCodec.DecodeWrapped | agent/api/json.go:128-138 | the typed attempt on a string's contents: a parse error passes through unchanged; otherwise it succeeds exactly when the parsed value is accepted, and fails with the struct-decode error or the wrapped completeness error |
| OverridesCodec.UnmarshalContainerOverrides | agent/api/json.go:107-141 | an input accepted as an object wins over the string path; decode succeeds exactly when the input is accepted directly or through its string contents; every failure leaves the receiver unchanged |
| OverridesCodec.NonStringFailureAggregatesBoth | agent/api/json.go:121-126 | a rejected non-string input fails with a multi-error of the headline, the typed attempt's error and the string type error, in that order |
| OverridesCodec.WrappedFailureAggregatesAll | agent/api/json.go:121-140 | a string, or `null` read as the empty string, whose contents are rejected fails with a multi-error of the headline, the typed error, the nil string error and the contents' error |
| OverridesCodec.UnknownKeyRejected | agent/api/json.go:111-126 | an object failing the completeness check for every record is rejected and the receiver keeps its value |
| OverridesCodec.WrappedObjectDecodesAlike | agent/api/json.go:107-134 | the string-wrapped form of an accepted object decodes to the same record as the object itself |
| VolumeCodec.RawFields | agent/api/json.go:147-150 | reading the raw field map succeeds exactly on an object, giving its fields, or on `null`, giving no fields |
| VolumeCodec.UnmarshalName | agent/api/json.go:155-157 | reading the name succeeds exactly on a string, which replaces the name, or on `null`, which keeps it |
| VolumeCodec.UnmarshalTaskVolume | agent/api/json.go:145-180 | decode succeeds exactly on an object with a string or null `name` and a `host` that reads as a filesystem volume; a success sets `Name` from the `name` fragment (a string replaces it, `null` keeps it) and always sets a volume: the filesystem variant read from `host` exactly when its path is non-empty, otherwise the empty variant read from the same `host` fragment; an error never changes the volume |
| VolumeCodec.MarshalTaskVolume | agent/api/json.go:182-196 | the output object holds the name, and holds `host` exactly when a volume is set, carrying that variant's encoding |
| VolumeCodec.VolumeErrorPaths | agent/api/json.go:145-179 | non-object, missing name, a name that is neither string nor null, missing host and an unreadable host each fail with their own error and leave the volume untouched; the bad name keeps `Name`; the last two have already read the name, a string replacing `Name` and `null` keeping it |
| VolumeCodec.VolumeRoundTrip | agent/api/json.go:159-191 | when the struct codecs read back their own encodings, every volume except a filesystem volume with an empty path decodes from its encoding to itself, into any prior receiver |
| VolumeCodec.EmptyPathVolumeChangesVariant | agent/api/json.go:166-172 | a filesystem volume with an empty path decodes from its encoding as the empty-volume variant |
| VolumeCodec.NilVolumeDoesNotRoundTrip | agent/api/json.go:182-194 | a volume with no variant encodes without `host` and so fails to decode with the unrecognized-type error, after taking the name |

## Left out

- The status tables `taskStatusMap` / `containerStatusMap` and the `String()` methods are not part of this model. They are parameters. The full status round trip is therefore stated only for names that the table maps back, and "encode never yields a legacy name" is not stated, because it depends on `String()`.
- The struct decoders and encoders of `ContainerOverridesCopy`, `FSHostVolume` and `EmptyHostVolume`, `utils.CompleteJsonUnmarshal`, and encoding/json's parsing of JSON text are not part of this model. They are parameters. `FSHostVolume` is modelled by its `FSSourcePath` alone.
- Byte-level JSON lexing and serialisation are left out. Overrides and volumes are decoded from and encoded to an abstract `Json` value, and key order in output is not modelled.
- `utils.NewMultiError`'s message formatting is left out. A multi-error is the ordered list of its arguments, with a nil argument kept as `None`.
- Text.ToLower: `strings.ToLower` is modelled for ASCII letters only. This does not affect the comparison with `null`, because no other code point lower-cases to one of its letters.
- `log.Warn` (json.go:204) and `log.Crit` (json.go:193) are left out because they are side effects only. A nil volume marshals to an object without `host`, as the code does after logging.
- The `ContainerOverrides` encoder is left out because the file defines none. The record is written by the default struct encoding.
