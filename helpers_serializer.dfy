/** `XamarinFiles.FancyLogger.Helpers.Serializer`: the newer serializer,
    whose constructor sets the ignore condition of the write options it is
    given, once for a "with nulls" and once for a "without nulls" use, and
    `keepNulls` picks between the two. */
module HelpersSerializer {
  import opened Wrappers
  import opened Json

  class Serializer {
    const sharedReadJsonOptions: JsonSerializerOptions
    const sharedWriteJsonOptionsWithNulls: JsonSerializerOptions
    const sharedWriteJsonOptionsWithoutNulls: JsonSerializerOptions

    /** Both write references are the one object passed in, which ends up
        with `WhenWritingNull`; its other settings are kept, and the
        caller, who still holds it, sees the change. */
    constructor(readJsonOptions: JsonSerializerOptions, writeJsonOptions: JsonSerializerOptions)
      modifies writeJsonOptions
      ensures sharedReadJsonOptions == readJsonOptions
      ensures sharedWriteJsonOptionsWithNulls == writeJsonOptions
      ensures sharedWriteJsonOptionsWithoutNulls == writeJsonOptions
      ensures writeJsonOptions.Settings()
              == old(writeJsonOptions.Settings()).(defaultIgnoreCondition := WhenWritingNull)
      ensures readJsonOptions != writeJsonOptions ==> readJsonOptions.Settings() == old(readJsonOptions.Settings())
    {
      sharedReadJsonOptions := readJsonOptions;
      sharedWriteJsonOptionsWithNulls := writeJsonOptions;
      sharedWriteJsonOptionsWithoutNulls := writeJsonOptions;
      new;
      writeJsonOptions.SetDefaultIgnoreCondition(Never);
      writeJsonOptions.SetDefaultIgnoreCondition(WhenWritingNull);
    }

    /** Both write references name one object. */
    predicate Aliased() {
      sharedWriteJsonOptionsWithNulls == sharedWriteJsonOptionsWithoutNulls
    }

    /** `CheckKeepNullsToggle`. */
    function CheckKeepNullsToggle(keepNulls: bool): (o: JsonSerializerOptions)
      ensures o == sharedWriteJsonOptionsWithNulls || o == sharedWriteJsonOptionsWithoutNulls
      ensures keepNulls ==> o == sharedWriteJsonOptionsWithNulls
      ensures !keepNulls ==> o == sharedWriteJsonOptionsWithoutNulls
    {
      if keepNulls then sharedWriteJsonOptionsWithNulls else sharedWriteJsonOptionsWithoutNulls
    }

    /** `ToJson<T>(obj, keepNulls)` against the options' current settings. */
    function ToJson(f: Foreign, t: TypeArg, obj: Option<Obj>, keepNulls: bool): (r: JsonOutcome)
      reads sharedReadJsonOptions, sharedWriteJsonOptionsWithNulls, sharedWriteJsonOptionsWithoutNulls
      ensures r == Json.ToJson(f, t, obj, sharedReadJsonOptions.Settings(), CheckKeepNullsToggle(keepNulls).Settings())
      ensures r.formattedJson.Some? <==> r.problemDetails.None?
    {
      Json.ToJson(f, t, obj, sharedReadJsonOptions.Settings(), CheckKeepNullsToggle(keepNulls).Settings())
    }

    /** With the two references aliased, as the constructor leaves them,
        `keepNulls` changes nothing: both choices write with the same
        settings. */
    lemma KeepNullsHasNoEffect(f: Foreign, t: TypeArg, obj: Option<Obj>)
      requires Aliased()
      ensures ToJson(f, t, obj, true) == ToJson(f, t, obj, false)
    {
    }

    /** The "with nulls" options do not keep nulls once the constructor has
        run: they are the object it last set to `WhenWritingNull`. */
    lemma WithNullsDropsNulls()
      requires Aliased() && sharedWriteJsonOptionsWithoutNulls.defaultIgnoreCondition == WhenWritingNull
      ensures CheckKeepNullsToggle(true).Settings().defaultIgnoreCondition == WhenWritingNull
    {
    }
  }

  /** The serializer as evidently intended: the "with nulls" options are a
      copy of the write options set to `Never`, and the caller's object is
      set to `WhenWritingNull` as before. */
  class CopyingSerializer {
    const sharedReadJsonOptions: JsonSerializerOptions
    const sharedWriteJsonOptionsWithNulls: JsonSerializerOptions
    const sharedWriteJsonOptionsWithoutNulls: JsonSerializerOptions

    constructor(readJsonOptions: JsonSerializerOptions, writeJsonOptions: JsonSerializerOptions)
      modifies writeJsonOptions
      ensures sharedReadJsonOptions == readJsonOptions
      ensures fresh(sharedWriteJsonOptionsWithNulls)
      ensures sharedWriteJsonOptionsWithNulls.Settings()
              == old(writeJsonOptions.Settings()).(defaultIgnoreCondition := Never)
      ensures sharedWriteJsonOptionsWithoutNulls == writeJsonOptions
      ensures writeJsonOptions.Settings()
              == old(writeJsonOptions.Settings()).(defaultIgnoreCondition := WhenWritingNull)
    {
      var copy := new JsonSerializerOptions();
      copy.allowTrailingCommas := writeJsonOptions.allowTrailingCommas;
      copy.allowReadingFromString := writeJsonOptions.allowReadingFromString;
      copy.propertyNameCaseInsensitive := writeJsonOptions.propertyNameCaseInsensitive;
      copy.writeIndented := writeJsonOptions.writeIndented;
      copy.defaultIgnoreCondition := Never;
      sharedReadJsonOptions := readJsonOptions;
      sharedWriteJsonOptionsWithNulls := copy;
      sharedWriteJsonOptionsWithoutNulls := writeJsonOptions;
      new;
      writeJsonOptions.SetDefaultIgnoreCondition(WhenWritingNull);
    }

    function CheckKeepNullsToggle(keepNulls: bool): JsonSerializerOptions {
      if keepNulls then sharedWriteJsonOptionsWithNulls else sharedWriteJsonOptionsWithoutNulls
    }

    function ToJson(f: Foreign, t: TypeArg, obj: Option<Obj>, keepNulls: bool): (r: JsonOutcome)
      reads sharedReadJsonOptions, sharedWriteJsonOptionsWithNulls, sharedWriteJsonOptionsWithoutNulls
      ensures r == Json.ToJson(f, t, obj, sharedReadJsonOptions.Settings(), CheckKeepNullsToggle(keepNulls).Settings())
    {
      Json.ToJson(f, t, obj, sharedReadJsonOptions.Settings(), CheckKeepNullsToggle(keepNulls).Settings())
    }

    /** While the two write objects keep the conditions the constructor
        gave them, `keepNulls` selects writing nulls and its absence selects
        leaving them out. */
    lemma KeepNullsSelectsCondition()
      requires sharedWriteJsonOptionsWithNulls.defaultIgnoreCondition == Never
      requires sharedWriteJsonOptionsWithoutNulls.defaultIgnoreCondition == WhenWritingNull
      ensures CheckKeepNullsToggle(true).Settings().defaultIgnoreCondition == Never
      ensures CheckKeepNullsToggle(false).Settings().defaultIgnoreCondition == WhenWritingNull
    {
    }
  }
}
