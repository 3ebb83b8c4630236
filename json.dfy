/** The System.Text.Json and Refit surface the serializers use: the
    serializer options object, the objects handed to `ToJson<T>`, the
    `ProblemDetails` record, and the foreign parse, cast, encode and
    problem-extraction calls as uninterpreted functions. */
module Json {
  import opened Wrappers
  import opened Exceptions

  /** The type argument `T` of `ToJson<T>`: `string`, or any other type. */
  datatype TypeArg = StringType | Named(name: string)

  /** An object handed to the serializer: a string, or an instance of
      another type together with what its `ToString()` renders. */
  datatype Obj = Str(s: string) | Instance(typeName: string, display: string) {
    /** The object inside an interpolated string. */
    function Display(): string {
      match this
      case Str(s) => s
      case Instance(_, d) => d
    }
  }

  /** Refit's `ProblemDetails` (section 3.1 of RFC 7807); a null string
      member is `None`. `Errors` and `Extensions` are dictionaries, which
      reach the serializer as objects. */
  datatype ProblemDetails = ProblemDetails(
    problemType: Option<string>, title: Option<string>, status: Option<int>,
    detail: Option<string>, instance: Option<string>,
    errors: Option<Obj>, extensions: Option<Obj>)

  /** The type arguments and labels both loggers use for the two
      dictionaries of a problem. */
  const ErrorsType: TypeArg := Named("Dictionary<string, string[]>")
  const ExtensionsType: TypeArg := Named("Dictionary<string, object>")
  const ErrorsHeading: Option<string> := Some("Errors Dictionary")
  const ExtensionsHeading: Option<string> := Some("Extensions Dictionary")

  datatype IgnoreCondition = Never | WhenWritingDefault | WhenWritingNull | Always

  /** The settings of a `JsonSerializerOptions` object at one moment. */
  datatype JsonSettings = JsonSettings(
    allowTrailingCommas: bool, allowReadingFromString: bool,
    propertyNameCaseInsensitive: bool, writeIndented: bool,
    defaultIgnoreCondition: IgnoreCondition)

  /** The settings of `new JsonSerializerOptions()`. */
  const DefaultSettings := JsonSettings(false, false, false, false, Never)

  /** A `JsonSerializerOptions` object: every property has a setter, and
      the loggers share one object between several owners. */
  class JsonSerializerOptions {
    var allowTrailingCommas: bool
    var allowReadingFromString: bool
    var propertyNameCaseInsensitive: bool
    var writeIndented: bool
    var defaultIgnoreCondition: IgnoreCondition

    function Settings(): JsonSettings
      reads this
    {
      JsonSettings(allowTrailingCommas, allowReadingFromString,
                   propertyNameCaseInsensitive, writeIndented, defaultIgnoreCondition)
    }

    constructor()
      ensures Settings() == DefaultSettings
    {
      allowTrailingCommas := false;
      allowReadingFromString := false;
      propertyNameCaseInsensitive := false;
      writeIndented := false;
      defaultIgnoreCondition := Never;
    }

    /** The `DefaultIgnoreCondition` setter. */
    method SetDefaultIgnoreCondition(c: IgnoreCondition)
      modifies this
      ensures Settings() == old(Settings()).(defaultIgnoreCondition := c)
    {
      defaultIgnoreCondition := c;
    }
  }

  /** The reading defaults both loggers declare: trailing commas, numbers
      read from strings and case-insensitive property names. */
  const ReadDefaults := DefaultSettings.(allowTrailingCommas := true, allowReadingFromString := true,
                                         propertyNameCaseInsensitive := true)

  /** The writing defaults both loggers declare: indented output. */
  const WriteDefaults := DefaultSettings.(writeIndented := true)

  /** `new() { AllowTrailingCommas = true, NumberHandling =
      AllowReadingFromString, PropertyNameCaseInsensitive = true }`. */
  method NewDefaultReadOptions() returns (o: JsonSerializerOptions)
    ensures fresh(o) && o.Settings() == ReadDefaults
  {
    o := new JsonSerializerOptions();
    o.allowTrailingCommas := true;
    o.allowReadingFromString := true;
    o.propertyNameCaseInsensitive := true;
  }

  /** `new() { WriteIndented = true }`. */
  method NewDefaultWriteOptions() returns (o: JsonSerializerOptions)
    ensures fresh(o) && o.Settings() == WriteDefaults
  {
    o := new JsonSerializerOptions();
    o.writeIndented := true;
  }

  /** The foreign calls: `JsonSerializer.Deserialize<T>` (a null result is
      `Success(None)`), the cast `(T)obj`, `JsonSerializer.Serialize`,
      Refit's `ExtractRefitProblemDetails` with developer messages, and the
      title lookup in `HttpStatusDetails` (`None` when the code is not a
      key). A call that throws returns `Failure` with its exception. */
  datatype Foreign = Foreign(
    deserialize: (string, TypeArg, JsonSettings) -> Result<Option<Obj>, Exception>,
    cast: (Obj, TypeArg) -> Result<Obj, Exception>,
    serialize: (Obj, JsonSettings) -> Result<string, Exception>,
    extractProblemDetails: (Exception, seq<string>) -> ProblemDetails,
    statusTitle: int -> Option<string>)

  /** What `ToJson<T>` returns: the formatted JSON and the problem, each
      possibly null. */
  datatype JsonOutcome = JsonOutcome(formattedJson: Option<string>, problemDetails: Option<ProblemDetails>)

  /** `$"...{nameof(T)}: \"{x}\""`: `nameof(T)` is the letter T whatever
      the type, and the offending text is quoted whole. */
  function DebugMessage(action: string, shown: string): string {
    action + " T: \"" + shown + "\""
  }

  /** The message opens with the action and ends with the offending text
      between double quotes, unaltered. */
  lemma DebugMessageQuotes(action: string, shown: string)
    ensures var m := DebugMessage(action, shown);
            m[..|action|] == action && m[|action|..|action| + 5] == " T: \""
            && m[|action| + 5..|m| - 1] == shown && m[|m| - 1] == '"'
  {
    var m := DebugMessage(action, shown);
    assert m == action + (" T: \"" + (shown + "\""));
  }

  const DeserializeAction := "Unable to deserialize object of type"
  const CastAction := "Unable to cast object to type"
  const SerializeAction := "Unable to serialize object of type"

  /** The problem `ToJson` returns for a step that threw `e`. */
  function Problem(f: Foreign, e: Exception, action: string, shown: string): JsonOutcome {
    JsonOutcome(None, Some(f.extractProblemDetails(e, [DebugMessage(action, shown)])))
  }

  /** The first half of `ToJson<T>` for a non-null object: the typed object,
      or the outcome that ends the call. A string is parsed (a null result
      counts as `new JsonException()`), anything else is cast. */
  function Typed(f: Foreign, t: TypeArg, obj: Obj, read: JsonSettings): Result<Obj, JsonOutcome> {
    match obj
    case Str(s) =>
      if t.StringType? then Failure(JsonOutcome(Some(s), None))
      else
        (match f.deserialize(s, t, read)
         case Failure(e) => Failure(Problem(f, e, DeserializeAction, s))
         case Success(None) => Failure(Problem(f, EmptyJsonException, DeserializeAction, s))
         case Success(Some(o)) => Success(o))
    case Instance(_, _) =>
      match f.cast(obj, t)
      case Failure(e) => Failure(Problem(f, e, CastAction, obj.Display()))
      case Success(o) => Success(o)
  }

  /** `ToJson<T>(obj)` with the read settings and the write settings the
      serializer picks. A null object gives the empty text; a string with
      `T` = string is returned as it is; every failure is caught and
      returned as a problem; in every case exactly one of the two parts is
      present. */
  function ToJson(f: Foreign, t: TypeArg, obj: Option<Obj>, read: JsonSettings, write: JsonSettings): (r: JsonOutcome)
    ensures r.formattedJson.Some? <==> r.problemDetails.None?
    ensures obj.None? ==> r == JsonOutcome(Some(""), None)
    ensures obj.Some? && obj.value.Str? && t.StringType? ==> r == JsonOutcome(Some(obj.value.s), None)
  {
    if obj.None? then JsonOutcome(Some(""), None)
    else
      match Typed(f, t, obj.value, read)
      case Failure(outcome) => outcome
      case Success(o) =>
        match f.serialize(o, write)
        case Failure(e) => Problem(f, e, SerializeAction, o.Display())
        case Success(json) => JsonOutcome(Some(json), None)
  }

  /** Each failing step ends the call with the problem extracted from its
      exception and a developer message that quotes the offending string or
      object; a null parse result fails like a thrown `JsonException`; a
      successful run returns the serialized text. */
  lemma ToJsonFailures(f: Foreign, t: TypeArg, obj: Obj, read: JsonSettings, write: JsonSettings)
    ensures obj.Str? && t.Named? && f.deserialize(obj.s, t, read).Failure? ==>
      ToJson(f, t, Some(obj), read, write)
        == Problem(f, f.deserialize(obj.s, t, read).error, DeserializeAction, obj.s)
    ensures obj.Str? && t.Named? && f.deserialize(obj.s, t, read) == Success(None) ==>
      ToJson(f, t, Some(obj), read, write) == Problem(f, EmptyJsonException, DeserializeAction, obj.s)
    ensures obj.Instance? && f.cast(obj, t).Failure? ==>
      ToJson(f, t, Some(obj), read, write) == Problem(f, f.cast(obj, t).error, CastAction, obj.display)
    ensures forall o :: Typed(f, t, obj, read) == Success(o) && f.serialize(o, write).Failure? ==>
      ToJson(f, t, Some(obj), read, write) == Problem(f, f.serialize(o, write).error, SerializeAction, o.Display())
    ensures forall o :: Typed(f, t, obj, read) == Success(o) && f.serialize(o, write).Success? ==>
      ToJson(f, t, Some(obj), read, write) == JsonOutcome(Some(f.serialize(o, write).value), None)
  {
  }

  /** The typed object comes from the parser for a string and from the cast
      for anything else; the string passthrough never reaches either. */
  lemma TypedSources(f: Foreign, t: TypeArg, obj: Obj, read: JsonSettings, o: Obj)
    requires Typed(f, t, obj, read) == Success(o)
    ensures obj.Str? ==> t.Named? && f.deserialize(obj.s, t, read) == Success(Some(o))
    ensures obj.Instance? ==> f.cast(obj, t) == Success(o)
  {
  }
}
