/** The JSON codec of TaskVolume: a name plus a host-mount description that
    is one of two variants, with no tag on the wire. The decoder picks the
    variant by first reading the `host` fragment as a filesystem volume and
    looking at its source path. The variants' own struct codecs are
    parameters; the empty volume's payload is the type parameter `E`. */
module VolumeCodec {
  import opened JsonValues

  /** A host-filesystem volume, as far as the codec looks into it: its source path. */
  datatype FSHostVolume = FSHostVolume(FSSourcePath: string)

  /** The two implementations of the `HostVolume` interface. */
  datatype HostVolume<E> = FSHost(fs: FSHostVolume) | EmptyHost(empty: E)

  /** A task volume; `Volume` is `None` when the interface value is nil. */
  datatype TaskVolume<E> = TaskVolume(Name: string, Volume: Option<HostVolume<E>>)

  /** The plain struct codecs of the two variants. */
  datatype HostCodecs<!E> = HostCodecs(
    /** json.Unmarshal into a fresh `FSHostVolume` */
    decodeFS: Json -> Result<FSHostVolume>,
    /** json.Unmarshal into a fresh `EmptyHostVolume`, its error discarded */
    decodeEmpty: Json -> E,
    /** json.Marshal of an `FSHostVolume` */
    encodeFS: FSHostVolume -> Json,
    /** json.Marshal of an `EmptyHostVolume` */
    encodeEmpty: E -> Json)

  const NoNameError: string := "invalid Volume; must include a name"
  const UnknownTypeError: string := "unrecognized volume type; try updating me"

  /** json.Unmarshal into a `map[string]json.RawMessage`: an object gives its
      fields, `null` gives the nil map, anything else is a type error. */
  function RawFields(b: Json): (r: Result<map<string, Json>>)
    ensures r.Success? <==> b.JObject? || b.JNull?
    ensures b.JObject? ==> r == Success(b.fields)
    ensures b.JNull? ==> r == Success(map[])
  {
    match b
    case JObject(fields) => Success(fields)
    case JNull => Success(map[])
    case _ => Failure(TypeMismatch("map[string]json.RawMessage"))
  }

  /** json.Unmarshal into the existing `tv.Name`: a string replaces it, `null`
      leaves it alone, anything else is a type error. */
  function UnmarshalName(prior: string, j: Json): (r: Result<string>)
    ensures r.Success? <==> j.JString? || j.JNull?
    ensures j.JString? ==> r == Success(j.s)
    ensures j.JNull? ==> r == Success(prior)
  {
    match j
    case JString(s) => Success(s)
    case JNull => Success(prior)
    case _ => Failure(TypeMismatch("string"))
  }

  /** The inputs the decoder accepts: an object with a string (or null)
      `name` and a `host` fragment that reads as a filesystem volume. */
  ghost predicate WellFormedVolume<E>(c: HostCodecs<E>, b: Json) {
    && b.JObject?
    && "name" in b.fields && (b.fields["name"].JString? || b.fields["name"].JNull?)
    && "host" in b.fields && c.decodeFS(b.fields["host"]).Success?
  }

  /** `TaskVolume.UnmarshalJSON` on a receiver holding `tv`. */
  function UnmarshalTaskVolume<E>(c: HostCodecs<E>, tv: TaskVolume<E>, b: Json): (r: Call<TaskVolume<E>>)
    ensures r.Returned?
    ensures r.err.None? <==> WellFormedVolume(c, b)
    ensures r.err.Some? ==> r.receiver.Volume == tv.Volume
    ensures r.err.None? ==>
      var fs := c.decodeFS(b.fields["host"]).value;
      && r.receiver.Volume.Some?
      && (r.receiver.Volume.value.FSHost? <==> fs.FSSourcePath != "")
      && (r.receiver.Volume.value.FSHost? ==> r.receiver.Volume.value.fs == fs)
      && (r.receiver.Volume.value.EmptyHost? ==> r.receiver.Volume.value.empty == c.decodeEmpty(b.fields["host"]))
    ensures r.err.None? ==> r.receiver.Name == UnmarshalName(tv.Name, b.fields["name"]).value
  {
    match RawFields(b)
    case Failure(e) => Returned(tv, Some(e))
    case Success(fields) =>
      if "name" !in fields then Returned(tv, Some(Message(NoNameError)))
      else
        match UnmarshalName(tv.Name, fields["name"])
        case Failure(e) => Returned(tv, Some(e))
        case Success(name) =>
          var named := tv.(Name := name);
          if "host" !in fields then Returned(named, Some(Message(UnknownTypeError)))
          else
            var host := fields["host"];
            match c.decodeFS(host)
            case Failure(e) => Returned(named, Some(e))
            case Success(fs) =>
              if fs.FSSourcePath == "" then Returned(named.(Volume := Some(EmptyHost(c.decodeEmpty(host)))), None)
              else Returned(named.(Volume := Some(FSHost(fs))), None)
  }

  /** `TaskVolume.MarshalJSON`: an object with the name and, for a non-nil
      volume, the variant's own encoding under `host`. */
  function MarshalTaskVolume<E>(c: HostCodecs<E>, tv: TaskVolume<E>): (r: Json)
    ensures r.JObject? && "name" in r.fields && r.fields["name"] == JString(tv.Name)
    ensures r.fields.Keys == if tv.Volume.Some? then {"name", "host"} else {"name"}
    ensures tv.Volume.Some? && tv.Volume.value.FSHost? ==> r.fields["host"] == c.encodeFS(tv.Volume.value.fs)
    ensures tv.Volume.Some? && tv.Volume.value.EmptyHost? ==> r.fields["host"] == c.encodeEmpty(tv.Volume.value.empty)
  {
    var named := map["name" := JString(tv.Name)];
    match tv.Volume
    case Some(FSHost(fs)) => JObject(named["host" := c.encodeFS(fs)])
    case Some(EmptyHost(empty)) => JObject(named["host" := c.encodeEmpty(empty)])
    case None => JObject(named)
  }

  /** The error paths, each leaving `Volume` untouched: not an object, no
      `name` key, a `name` that is neither a string nor null, no `host` key, a
      `host` fragment that is not a filesystem volume. Only the last two come
      after the name has been read, a string replacing `Name` and `null`
      keeping it. */
  lemma VolumeErrorPaths<E>(c: HostCodecs<E>, tv: TaskVolume<E>, b: Json)
    ensures !b.JObject? && !b.JNull? ==>
      UnmarshalTaskVolume(c, tv, b) == Returned(tv, Some(TypeMismatch("map[string]json.RawMessage")))
    ensures (b.JNull? || (b.JObject? && "name" !in b.fields)) ==>
      UnmarshalTaskVolume(c, tv, b) == Returned(tv, Some(Message(NoNameError)))
    ensures b.JObject? && "name" in b.fields && !(b.fields["name"].JString? || b.fields["name"].JNull?) ==>
      UnmarshalTaskVolume(c, tv, b) == Returned(tv, Some(TypeMismatch("string")))
    ensures b.JObject? && "name" in b.fields && UnmarshalName(tv.Name, b.fields["name"]).Success? && "host" !in b.fields ==>
      UnmarshalTaskVolume(c, tv, b) ==
        Returned(tv.(Name := UnmarshalName(tv.Name, b.fields["name"]).value), Some(Message(UnknownTypeError)))
    ensures
      && b.JObject? && "name" in b.fields && UnmarshalName(tv.Name, b.fields["name"]).Success?
      && "host" in b.fields && c.decodeFS(b.fields["host"]).Failure?
      ==>
      UnmarshalTaskVolume(c, tv, b) ==
        Returned(tv.(Name := UnmarshalName(tv.Name, b.fields["name"]).value), Some(c.decodeFS(b.fields["host"]).error))
  {
  }

  /** The struct codecs behave as encoding/json does for these structs: each
      variant reads back its own encoding, and an empty volume's encoding reads
      as a filesystem volume with an empty path. */
  ghost predicate FaithfulHostCodecs<E(!new)>(c: HostCodecs<E>) {
    && (forall fs :: c.decodeFS(c.encodeFS(fs)) == Success(fs))
    && (forall e :: c.decodeEmpty(c.encodeEmpty(e)) == e)
    && (forall e :: c.decodeFS(c.encodeEmpty(e)) == Success(FSHostVolume("")))
  }

  /** Encode-then-decode restores every volume except a filesystem volume
      with an empty path, into any prior receiver. */
  lemma VolumeRoundTrip<E(!new)>(c: HostCodecs<E>, prior: TaskVolume<E>, tv: TaskVolume<E>)
    requires FaithfulHostCodecs(c)
    requires tv.Volume.Some?
    requires tv.Volume.value.FSHost? ==> tv.Volume.value.fs.FSSourcePath != ""
    ensures UnmarshalTaskVolume(c, prior, MarshalTaskVolume(c, tv)) == Returned(tv, None)
  {
  }

  /** A filesystem volume with an empty path comes back as the other variant,
      built from the filesystem volume's own encoding. */
  lemma EmptyPathVolumeChangesVariant<E>(c: HostCodecs<E>, prior: TaskVolume<E>, name: string)
    requires c.decodeFS(c.encodeFS(FSHostVolume(""))) == Success(FSHostVolume(""))
    ensures
      var tv := TaskVolume(name, Some(FSHost(FSHostVolume(""))));
      UnmarshalTaskVolume(c, prior, MarshalTaskVolume(c, tv)) ==
        Returned(TaskVolume(name, Some(EmptyHost(c.decodeEmpty(c.encodeFS(FSHostVolume("")))))), None)
  {
  }

  /** A nil volume encodes without `host`, so decoding it fails with the
      unrecognized-type error after taking the name. */
  lemma NilVolumeDoesNotRoundTrip<E>(c: HostCodecs<E>, prior: TaskVolume<E>, name: string)
    ensures UnmarshalTaskVolume(c, prior, MarshalTaskVolume(c, TaskVolume(name, None))) ==
      Returned(prior.(Name := name), Some(Message(UnknownTypeError)))
  {
  }
}
