/** `XamarinFiles.FancyLogger.Serializer`: the serializer the loggers use.
    It keeps the two option objects it is given and always writes with the
    write options, whatever `keepNulls` says. */
module RootSerializer {
  import opened Wrappers
  import opened Json

  /** The settings of the read and the write options at one moment. */
  datatype SerializerSettings = SerializerSettings(read: JsonSettings, write: JsonSettings)

  class Serializer {
    const readJsonOptions: JsonSerializerOptions
    const writeJsonOptions: JsonSerializerOptions

    /** Stores the references; neither object is changed. */
    constructor(readJsonOptions: JsonSerializerOptions, writeJsonOptions: JsonSerializerOptions)
      ensures this.readJsonOptions == readJsonOptions && this.writeJsonOptions == writeJsonOptions
    {
      this.readJsonOptions := readJsonOptions;
      this.writeJsonOptions := writeJsonOptions;
    }

    /** What the two option objects hold now. */
    function Current(): SerializerSettings
      reads readJsonOptions, writeJsonOptions
    {
      SerializerSettings(readJsonOptions.Settings(), writeJsonOptions.Settings())
    }

    /** `ToJson<T>(obj, keepNulls)` against the options' current settings. */
    function ToJson(f: Foreign, t: TypeArg, obj: Option<Obj>, keepNulls: bool): (r: JsonOutcome)
      reads readJsonOptions, writeJsonOptions
      ensures r == Json.ToJson(f, t, obj, Current().read, Current().write)
      ensures r.formattedJson.Some? <==> r.problemDetails.None?
    {
      Json.ToJson(f, t, obj, readJsonOptions.Settings(), writeJsonOptions.Settings())
    }

    /** `keepNulls` is accepted and ignored. */
    lemma KeepNullsIgnored(f: Foreign, t: TypeArg, obj: Option<Obj>)
      ensures ToJson(f, t, obj, true) == ToJson(f, t, obj, false)
    {
    }
  }
}
