/** `XamarinFiles.FancyLogger.FancyLogger`: the current logger class. Each
    `Log*` method composes its text and appends it to the sink at a fixed
    level; each is specified by a function giving the entries it appends
    and the exception it lets escape. */
module FancyLogging {
  import opened Wrappers
  import Text
  import opened Characters
  import opened Exceptions
  import opened Sinks
  import opened Json
  import opened LoggerOptions
  import StringExtensions
  import opened RootSerializer

  /** How deep the logger follows a problem met while logging the
      dictionaries of a problem it is already logging. */
  const NestingFuel: nat := 3

  /** `AddIndent`: one optional indent for nesting. */
  function AddIndent(addExtraIndent: bool): string {
    if addExtraIndent then Indent else ""
  }

  /** The static members of the class: one options object and two JSON
      option objects, shared by every logger built without its own. */
  class FancyLoggerStatics {
    const defaultLoggerOptions: FancyLoggerOptions
    const defaultReadOptions: JsonSerializerOptions
    const defaultWriteJsonOptions: JsonSerializerOptions

    constructor()
      ensures fresh(defaultLoggerOptions) && fresh(defaultLoggerOptions.allLines)
      ensures defaultLoggerOptions.HasDefaults() && defaultLoggerOptions.Separate()
      ensures fresh(defaultReadOptions) && defaultReadOptions.Settings() == ReadDefaults
      ensures fresh(defaultWriteJsonOptions) && defaultWriteJsonOptions.Settings() == WriteDefaults
    {
      defaultLoggerOptions := new FancyLoggerOptions();
      var read := NewDefaultReadOptions();
      var write := NewDefaultWriteOptions();
      defaultReadOptions := read;
      defaultWriteJsonOptions := write;
    }
  }

  class FancyLogger {
    const logger: Sink
    const serializer: RootSerializer.Serializer
    const loggerOptions: FancyLoggerOptions
    const readJsonOptions: JsonSerializerOptions
    const writeJsonOptions: JsonSerializerOptions
    /** `Environment.NewLine`. */
    const newLine: NewLine
    const foreign: Foreign
    /** How deep this logger follows nested problems: `NestingFuel`. */
    const nestingFuel: nat

    // The shorthand properties: private setters, set once by the
    // constructor from the options object.
    const allLinesPrefixString: string
    const allLinesPadLength: int
    const allLinesPadString: string
    const longDividerLinesPadLength: int
    const longDividerLinesPadString: string
    const shortDividerLinesPadLength: int
    const shortDividerLinesPadString: string
    const sectionLinesPadLength: int
    const sectionLinesPadString: string
    const subsectionLinesPadLength: int
    const subsectionLinesPadString: string
    const headerLinesPadLength: int
    const headerLinesPadString: string
    const footerLinesPadLength: int
    const footerLinesPadString: string

    /** `MapShorthandProperties`: every shorthand property holds the value
        of the option it names. */
    predicate MappedFrom(o: FancyLoggerOptions)
      reads o, o.allLines, o.longDividerLines, o.shortDividerLines, o.sectionLines,
            o.subsectionLines, o.headerLines, o.footerLines
    {
      allLinesPrefixString == o.allLines.prefixString
      && allLinesPadLength == o.allLines.padLength && allLinesPadString == o.allLines.padString
      && longDividerLinesPadLength == o.longDividerLines.padLength
      && longDividerLinesPadString == o.longDividerLines.padString
      && shortDividerLinesPadLength == o.shortDividerLines.padLength
      && shortDividerLinesPadString == o.shortDividerLines.padString
      && sectionLinesPadLength == o.sectionLines.padLength
      && sectionLinesPadString == o.sectionLines.padString
      && subsectionLinesPadLength == o.subsectionLines.padLength
      && subsectionLinesPadString == o.subsectionLines.padString
      && headerLinesPadLength == o.headerLines.padLength
      && headerLinesPadString == o.headerLines.padString
      && footerLinesPadLength == o.footerLines.padLength
      && footerLinesPadString == o.footerLines.padString
    }

    /** The options object is the one passed in or the shared static one;
        a prefix that is not blank and a pad length that is not null are
        written into its `AllLines` record, where every other holder of the
        object sees them; the shorthand properties are read back from it.
        Without a sink a new one is made, named by the padded prefix, and
        told that it was created. */
    constructor(statics: FancyLoggerStatics, logger: Option<Sink>, allLinesPrefix: Option<string>,
                allLinesPadLength: Option<int>, loggerOptions: Option<FancyLoggerOptions>,
                readJsonOptions: Option<JsonSerializerOptions>,
                writeJsonOptions: Option<JsonSerializerOptions>, newLine: NewLine, foreign: Foreign)
      modifies loggerOptions.GetOr(statics.defaultLoggerOptions).allLines
      ensures this.loggerOptions == loggerOptions.GetOr(statics.defaultLoggerOptions)
      ensures this.readJsonOptions == readJsonOptions.GetOr(statics.defaultReadOptions)
      ensures this.writeJsonOptions == writeJsonOptions.GetOr(statics.defaultWriteJsonOptions)
      ensures this.newLine == newLine && this.foreign == foreign && nestingFuel == NestingFuel
      ensures var all := loggerOptions.GetOr(statics.defaultLoggerOptions).allLines;
              all == old(loggerOptions.GetOr(statics.defaultLoggerOptions).allLines)
              && all.prefixString == (if Text.IsNullOrWhiteSpace(allLinesPrefix) then old(all.prefixString)
                                      else allLinesPrefix.value)
              && all.padLength == (if allLinesPadLength.None? then old(all.padLength)
                                   else allLinesPadLength.value)
              && all.padString == old(all.padString)
      ensures MappedFrom(this.loggerOptions)
      ensures logger.Some? ==> this.logger == logger.value
      ensures logger.None? ==> fresh(this.logger)
      ensures logger.None? ==> this.logger.category == StringExtensions.PadRight(
                Some(this.allLinesPrefixString), this.allLinesPadLength, Some(this.allLinesPadString))
      ensures logger.None? ==> this.logger.entries == [Entry(Information, Indent + "Logger created" + newLine)]
      ensures fresh(serializer)
      ensures serializer.readJsonOptions == this.readJsonOptions
      ensures serializer.writeJsonOptions == this.writeJsonOptions
    {
      var options := loggerOptions.GetOr(statics.defaultLoggerOptions);
      this.loggerOptions := options;
      var read := readJsonOptions.GetOr(statics.defaultReadOptions);
      var write := writeJsonOptions.GetOr(statics.defaultWriteJsonOptions);
      this.readJsonOptions := read;
      this.writeJsonOptions := write;
      this.newLine := newLine;
      this.foreign := foreign;
      this.nestingFuel := NestingFuel;

      if !Text.IsNullOrWhiteSpace(allLinesPrefix) {
        options.allLines.prefixString := allLinesPrefix.value;
      }
      if allLinesPadLength.Some? {
        options.allLines.padLength := allLinesPadLength.value;
      }

      this.allLinesPrefixString := options.allLines.prefixString;
      this.allLinesPadLength := options.allLines.padLength;
      this.allLinesPadString := options.allLines.padString;
      this.longDividerLinesPadLength := options.longDividerLines.padLength;
      this.longDividerLinesPadString := options.longDividerLines.padString;
      this.shortDividerLinesPadLength := options.shortDividerLines.padLength;
      this.shortDividerLinesPadString := options.shortDividerLines.padString;
      this.sectionLinesPadLength := options.sectionLines.padLength;
      this.sectionLinesPadString := options.sectionLines.padString;
      this.subsectionLinesPadLength := options.subsectionLines.padLength;
      this.subsectionLinesPadString := options.subsectionLines.padString;
      this.headerLinesPadLength := options.headerLines.padLength;
      this.headerLinesPadString := options.headerLines.padString;
      this.footerLinesPadLength := options.footerLines.padLength;
      this.footerLinesPadString := options.footerLines.padString;

      if logger.Some? {
        this.logger := logger.value;
      } else {
        var created := new Sink(StringExtensions.PadRight(
          Some(options.allLines.prefixString), options.allLines.padLength, Some(options.allLines.padString)));
        created.Log(Information, Indent + "Logger created" + newLine);
        this.logger := created;
      }
      this.serializer := new RootSerializer.Serializer(read, write);
    }


    /** The message, followed by a line end when one is asked for. */
    function Ended(message: string, newLineAfter: bool): string {
      if newLineAfter then message + newLine else message
    }

    // ------------------------------------------------------------ general

    /** `LogWarning`: four spaces, the optional indent and the formatted
        text, at Warning level; a format `string.Format` rejects throws
        before anything is written. */
    function WarningOutput(format: string, addIndent: bool, newLineAfter: bool, args: seq<string>): (r: Emission)
      ensures ThrowsFaultsOnly(r)
      ensures r.thrown.Some? <==> Text.Format(format, args).None?
      ensures r.thrown.Some? ==> r == Throw(FormatException)
      ensures r.thrown.None? ==> |r.entries| == 1 && r.entries[0].level == Warning
    {
      ConstantFaults();
      match Text.Format(format, args)
      case None => Throw(FormatException)
      case Some(m) => Emit(Warning, Ended(Text.Chars(' ', 4) + AddIndent(addIndent) + m, newLineAfter))
    }

    method LogWarning(format: string, addIndent: bool, newLineAfter: bool, args: seq<string>)
      returns (thrown: Option<Exception>)
      modifies logger
      ensures var o := WarningOutput(format, addIndent, newLineAfter, args);
              logger.entries == old(logger.entries) + o.entries && thrown == o.thrown
    {
      var formatted := Text.Format(format, args);
      if formatted.None? {
        return Some(FormatException);
      }
      var message := Text.Chars(' ', 4) + AddIndent(addIndent) + formatted.value;
      if newLineAfter {
        message := message + newLine;
      }
      logger.Log(Warning, message);
      thrown := None;
    }

    /** `LogInfo`: the optional indent and the formatted text, at
        Information level; the text is always formatted. */
    function InfoOutput(format: string, addIndent: bool, newLineAfter: bool, args: seq<string>): (r: Emission)
      ensures ThrowsFaultsOnly(r)
      ensures r.thrown.Some? <==> Text.Format(format, args).None?
      ensures r.thrown.Some? ==> r == Throw(FormatException)
      ensures r.thrown.None? ==> |r.entries| == 1 && r.entries[0].level == Information
    {
      ConstantFaults();
      match Text.Format(format, args)
      case None => Throw(FormatException)
      case Some(m) => Emit(Information, Ended(AddIndent(addIndent) + m, newLineAfter))
    }

    method LogInfo(format: string, addIndent: bool, newLineAfter: bool, args: seq<string>)
      returns (thrown: Option<Exception>)
      modifies logger
      ensures var o := InfoOutput(format, addIndent, newLineAfter, args);
              logger.entries == old(logger.entries) + o.entries && thrown == o.thrown
    {
      var formatted := Text.Format(format, args);
      if formatted.None? {
        return Some(FormatException);
      }
      var message := AddIndent(addIndent) + formatted.value;
      if newLineAfter {
        message := message + newLine;
      }
      logger.Log(Information, message);
      thrown := None;
    }

    /** `LogError`: the line end is part of the format. */
    function ErrorOutput(format: string, args: seq<string>): (r: Emission)
      ensures ThrowsFaultsOnly(r)
      ensures r.thrown.Some? <==> Text.Format(format + newLine, args).None?
      ensures r.thrown.None? ==> r.entries == [Entry(Error, Text.Format(format + newLine, args).value)]
    {
      ConstantFaults();
      match Text.Format(format + newLine, args)
      case None => Throw(FormatException)
      case Some(m) => Emit(Error, m)
    }

    method LogError(format: string, args: seq<string>) returns (thrown: Option<Exception>)
      modifies logger
      ensures var o := ErrorOutput(format, args);
              logger.entries == old(logger.entries) + o.entries && thrown == o.thrown
    {
      var message := Text.Format(format + newLine, args);
      if message.None? {
        return Some(FormatException);
      }
      logger.Log(Error, message.value);
      thrown := None;
    }

    /** `LogTrace`: six spaces and the optional indent; the text is
        formatted only when there are arguments. */
    function TraceOutput(format: string, addIndent: bool, newLineAfter: bool, args: seq<string>): (r: Emission)
      ensures ThrowsFaultsOnly(r)
      ensures args == [] ==> r == Emit(Trace, Ended(Text.Chars(' ', 6) + AddIndent(addIndent) + format, newLineAfter))
      ensures r.thrown.Some? <==> args != [] && Text.Format(format, args).None?
      ensures r.thrown.None? ==> |r.entries| == 1 && r.entries[0].level == Trace
    {
      ConstantFaults();
      if args == [] then Emit(Trace, Ended(Text.Chars(' ', 6) + AddIndent(addIndent) + format, newLineAfter))
      else
        match Text.Format(format, args)
        case None => Throw(FormatException)
        case Some(m) => Emit(Trace, Ended(Text.Chars(' ', 6) + AddIndent(addIndent) + m, newLineAfter))
    }

    method LogTrace(format: string, addIndent: bool, newLineAfter: bool, args: seq<string>)
      returns (thrown: Option<Exception>)
      modifies logger
      ensures var o := TraceOutput(format, addIndent, newLineAfter, args);
              logger.entries == old(logger.entries) + o.entries && thrown == o.thrown
    {
      var text := format;
      if args != [] {
        var formatted := Text.Format(format, args);
        if formatted.None? {
          return Some(FormatException);
        }
        text := formatted.value;
      }
      var message := Text.Chars(' ', 6) + AddIndent(addIndent) + text;
      if newLineAfter {
        message := message + newLine;
      }
      logger.Log(Trace, message);
      thrown := None;
    }

    /** `LogScalar`: six spaces, the optional indent, then the label and the
        value on either side of an indented `=`, at Trace level. */
    function ScalarOutput(labelText: string, value: string, addIndent: bool, newLineAfter: bool): (r: Emission)
      ensures r.thrown.None? && |r.entries| == 1 && r.entries[0].level == Trace
    {
      Emit(Trace, Ended(Text.Chars(' ', 6) + AddIndent(addIndent) + labelText + Indent + "=" + Indent + value,
                        newLineAfter))
    }

    method LogScalar(labelText: string, value: string, addIndent: bool, newLineAfter: bool)
      modifies logger
      ensures logger.entries == old(logger.entries) + ScalarOutput(labelText, value, addIndent, newLineAfter).entries
    {
      var message := Text.Chars(' ', 6) + AddIndent(addIndent) + labelText + Indent + "=" + Indent + value;
      if newLineAfter {
        message := message + newLine;
      }
      logger.Log(Trace, message);
    }

    // --------------------------------------------------------- exceptions

    /** `LogWarning` with its default flags for each text in turn, stopping
        at the first one that throws. */
    function Warnings(formats: seq<string>): (r: Emission)
      ensures ThrowsFaultsOnly(r)
      ensures r.thrown.Some? ==> r.thrown == Some(FormatException)
      ensures (forall i :: 0 <= i < |formats| ==> Text.NoBraces(formats[i]))
              ==> r.thrown.None? && r.entries == WarningEntries(formats)
    {
      if formats == [] then Nothing
      else
        Text.FormatPlain(formats[0], []);
        WarningOutput(formats[0], true, true, []).Then(Warnings(formats[1..]))
    }

    /** What `Warnings` writes when no text holds a brace: each text
        unchanged behind the warning prefix. */
    function WarningEntries(formats: seq<string>): (r: seq<Entry>)
      ensures |r| == |formats|
      ensures forall i :: 0 <= i < |r| ==>
                r[i] == Entry(Warning, Text.Chars(' ', 4) + Indent + formats[i] + newLine)
    {
      if formats == [] then []
      else [Entry(Warning, Text.Chars(' ', 4) + Indent + formats[0] + newLine)] + WarningEntries(formats[1..])
    }

    /** The body of `LogCommonException`, which makes at most two
        straight-line `LogWarning` calls (the outer line, then the inner one
        when there is an inner message): the loop runs over the texts
        `CommonWarnings` gives, one call each, stopping at the first that
        throws. */
    method LogWarnings(formats: seq<string>) returns (thrown: Option<Exception>)
      modifies logger
      ensures var o := Warnings(formats);
              logger.entries == old(logger.entries) + o.entries && thrown == o.thrown
    {
      thrown := None;
      ghost var done := Nothing;
      ThenNothing(Warnings(formats));
      assert formats[0..] == formats;
      var i := 0;
      while i < |formats|
        invariant 0 <= i <= |formats|
        invariant logger.entries == old(logger.entries) + done.entries
        invariant thrown.None? && done.thrown.None?
        invariant done.Then(Warnings(formats[i..])) == Warnings(formats)
      {
        ghost var step := WarningOutput(formats[i], true, true, []);
        WarningsStep(formats, i);
        Advance(done, step, Warnings(formats[i + 1..]), Warnings(formats));
        AppendedTwice(old(logger.entries), done.entries, step.entries);
        thrown := LogWarning(formats[i], true, true, []);
        done := done.Then(step);
        if thrown.Some? {
          return;
        }
        i := i + 1;
      }
      ThenNothing(done);
    }

    lemma WarningsStep(formats: seq<string>, i: nat)
      requires i < |formats|
      ensures Warnings(formats[i..]) == WarningOutput(formats[i], true, true, []).Then(Warnings(formats[i + 1..]))
    {
      assert formats[i..][1..] == formats[i + 1..];
    }

    /** `LogCommonException`: the outer warning, then the indented inner
        warning when the inner message is neither null nor white space. */
    function CommonExceptionOutput(e: Exception, outerLabel: string, innerLabel: string): (r: Emission)
      ensures ThrowsFaultsOnly(r)
    {
      Warnings(CommonWarnings(e, outerLabel, innerLabel, newLine))
    }

    method LogCommonException(e: Exception, outerLabel: string, innerLabel: string)
      returns (thrown: Option<Exception>)
      modifies logger
      ensures var o := CommonExceptionOutput(e, outerLabel, innerLabel);
              logger.entries == old(logger.entries) + o.entries && thrown == o.thrown
    {
      thrown := LogWarnings(CommonWarnings(e, outerLabel, innerLabel, newLine));
    }

    /** `LogGeneralException`: the common lines under "EXCEPTION". The
        runtime faults the logger raises itself are logged without a throw. */
    function GeneralExceptionOutput(e: Exception): (r: Emission)
      ensures ThrowsFaultsOnly(r)
      ensures IsRuntimeFault(e) ==> r.thrown.None?
    {
      var r := CommonExceptionOutput(e, "EXCEPTION", "INNER EXCEPTION");
      assert IsRuntimeFault(e) ==>
        var w := CommonWarnings(e, "EXCEPTION", "INNER EXCEPTION", newLine);
        |w| == 1 && Text.NoBraces(w[0]);
      r
    }

    method LogGeneralException(e: Exception) returns (thrown: Option<Exception>)
      modifies logger
      ensures var o := GeneralExceptionOutput(e);
              logger.entries == old(logger.entries) + o.entries && thrown == o.thrown
    {
      thrown := LogCommonException(e, "EXCEPTION", "INNER EXCEPTION");
    }

    /** `LogHttpRequestException`: the common lines under "HTTP REQUEST
        EXCEPTION" with the inner label chosen from the inner exception. */
    function HttpRequestExceptionOutput(e: Exception): (r: Emission)
      ensures ThrowsFaultsOnly(r)
    {
      CommonExceptionOutput(e, "HTTP REQUEST EXCEPTION", HttpInnerLabel(e.inner))
    }

    method LogHttpRequestException(e: Exception) returns (thrown: Option<Exception>)
      modifies logger
      ensures var o := HttpRequestExceptionOutput(e);
              logger.entries == old(logger.entries) + o.entries && thrown == o.thrown
    {
      var innerLabel, innerStatusCode := "INNER EXCEPTION", None;
      if e.inner.Some? && e.inner.value.Socket? && e.inner.value.socketErrorCode == ConnectionRefused {
        innerLabel, innerStatusCode := "SOCKET EXCEPTION - ConnectionRefused", Some(ServiceUnavailable);
      } else if e.inner.Some? && e.inner.value.Web? && e.inner.value.status == NameResolutionFailure {
        innerLabel, innerStatusCode := "WEB EXCEPTION - NameResolutionFailure", Some(ServiceUnavailable);
      }
      innerLabel := innerLabel + (if innerStatusCode.Some? then StatusName(innerStatusCode.value) else "");
      thrown := LogCommonException(e, "HTTP REQUEST EXCEPTION", innerLabel);
    }

    /** `LogJsonException`: the common lines under "JSON EXCEPTION", then
        the position and the path. */
    function JsonExceptionOutput(e: Exception): (r: Emission)
      requires e.Json?
      ensures ThrowsFaultsOnly(r)
    {
      var position := JsonPositionWarnings(e);
      CommonExceptionOutput(e, "JSON EXCEPTION", "INNER EXCEPTION")
        .Then(WarningOutput(position[0], true, true, []))
        .Then(WarningOutput(position[1], true, true, []))
    }

    method LogJsonException(e: Exception) returns (thrown: Option<Exception>)
      requires e.Json?
      modifies logger
      ensures var o := JsonExceptionOutput(e);
              logger.entries == old(logger.entries) + o.entries && thrown == o.thrown
    {
      var position := JsonPositionWarnings(e);
      ghost var common := CommonExceptionOutput(e, "JSON EXCEPTION", "INNER EXCEPTION");
      ghost var line := WarningOutput(position[0], true, true, []);
      ghost var path := WarningOutput(position[1], true, true, []);
      thrown := LogCommonException(e, "JSON EXCEPTION", "INNER EXCEPTION");
      if thrown.Some? {
        return;
      }
      thrown := LogWarning(position[0], true, true, []);
      if thrown.Some? {
        return;
      }
      thrown := LogWarning(position[1], true, true, []);
      AppendedInTurn(old(logger.entries), common.entries, line.entries, path.entries);
    }

    /** `LogApiException`: the common lines under "API EXCEPTION", the
        operation line, then the response content. */
    function ApiExceptionOutput(js: SerializerSettings, e: Exception): (r: Emission)
      requires e.Api?
      ensures ThrowsFaultsOnly(r)
    {
      CommonExceptionOutput(e, "API EXCEPTION", "INNER EXCEPTION")
        .Then(OperationOutput(e))
        .Then(ContentOutput(js, e))
    }

    /** The operation line of an API exception; a null request throws. */
    function OperationOutput(e: Exception): (r: Emission)
      requires e.Api?
      ensures ThrowsFaultsOnly(r)
      ensures e.requestMethod.None? ==> r == Throw(NullReferenceException)
    {
      ConstantFaults();
      match OperationWarning(e, newLine)
      case Failure(x) => Throw(x)
      case Success(w) => WarningOutput(w, true, true, [])
    }

    /** The response content of an API exception, logged as a
        `ProblemDetails` object unless it is null or white space. */
    function ContentOutput(js: SerializerSettings, e: Exception): (r: Emission)
      requires e.Api?
      ensures r.thrown.None?
      ensures Text.IsNullOrWhiteSpace(e.content) ==> r == Nothing
    {
      if Text.IsNullOrWhiteSpace(e.content) then Nothing
      else ObjectOutputAt(js, nestingFuel, Some(Str(e.content.value)), Named("ProblemDetails"),
                          false, false, None, true, true)
    }

    method LogApiException(e: Exception) returns (thrown: Option<Exception>)
      requires e.Api?
      modifies logger
      decreases 1, 1, 0, 1
      ensures var o := ApiExceptionOutput(serializer.Current(), e);
              logger.entries == old(logger.entries) + o.entries && thrown == o.thrown
    {
      ghost var js := serializer.Current();
      ghost var common := CommonExceptionOutput(e, "API EXCEPTION", "INNER EXCEPTION");
      ghost var operationOutput := OperationOutput(e);
      ghost var content := ContentOutput(js, e);
      ThenAssociative(common, operationOutput, content);
      thrown := LogCommonException(e, "API EXCEPTION", "INNER EXCEPTION");
      if thrown.Some? {
        return;
      }
      ghost var afterCommon := logger.entries;
      var operation := OperationWarning(e, newLine);
      if operation.Failure? {
        assert common.entries + [] == common.entries;
        return Some(operation.error);
      }
      thrown := LogWarning(operation.value, true, true, []);
      if thrown.Some? || Text.IsNullOrWhiteSpace(e.content) {
        assert logger.entries == old(logger.entries) + common.entries + operationOutput.entries;
        AppendedInTurn(old(logger.entries), common.entries, operationOutput.entries, []);
        assert operationOutput.entries + [] == operationOutput.entries;
        return;
      }
      ghost var afterOperation := logger.entries;
      LogObjectAt(nestingFuel, Some(Str(e.content.value)), Named("ProblemDetails"), false, false, None, true, true);
      assert js == serializer.Current();
      assert logger.entries == afterOperation + content.entries;
      AppendedInTurn(old(logger.entries), common.entries, operationOutput.entries, content.entries);
    }

    /** `LogException`: the first case of the type switch that matches picks
        the handler. */
    function ExceptionOutput(js: SerializerSettings, e: Exception): (r: Emission)
      ensures ThrowsFaultsOnly(r)
      ensures IsRuntimeFault(e) ==> r.thrown.None?
    {
      RouteByType(e);
      match Route(e)
      case ApiHandler => ApiExceptionOutput(js, e)
      case HttpRequestHandler => HttpRequestExceptionOutput(e)
      case JsonHandler => JsonExceptionOutput(e)
      case GeneralHandler => GeneralExceptionOutput(e)
    }

    method LogException(e: Exception) returns (thrown: Option<Exception>)
      modifies logger
      decreases if e.Api? then 1 else 0, 2, 0, 0
      ensures var o := ExceptionOutput(serializer.Current(), e);
              logger.entries == old(logger.entries) + o.entries && thrown == o.thrown
    {
      RouteByType(e);
      match Route(e)
      case ApiHandler => thrown := LogApiException(e);
      case HttpRequestHandler => thrown := LogHttpRequestException(e);
      case JsonHandler => thrown := LogJsonException(e);
      case GeneralHandler => thrown := LogGeneralException(e);
    }

    /** A runtime fault is routed to the general handler and logged without
        a throw. */
    lemma FaultRoutedToGeneral(js: SerializerSettings, e: Exception)
      requires IsRuntimeFault(e)
      ensures ExceptionOutput(js, e) == GeneralExceptionOutput(e)
      ensures ExceptionOutput(js, e).thrown.None?
    {
      RouteByType(e);
    }

    /** `LogDebug`: six spaces and the optional indent, formatting only when
        there are arguments; a format that throws is caught and handed to
        `LogException`, which logs the fault with the general handler
        (`FaultRoutedToGeneral`), so nothing escapes. */
    function DebugOutput(format: string, addIndent: bool, newLineAfter: bool, args: seq<string>): (r: Emission)
      ensures r.thrown.None?
      ensures args == [] ==> r == Emit(Debug, Ended(Text.Chars(' ', 6) + AddIndent(addIndent) + format, newLineAfter))
    {
      if args == [] then Emit(Debug, Ended(Text.Chars(' ', 6) + AddIndent(addIndent) + format, newLineAfter))
      else
        match Text.Format(format, args)
        case None => ConstantFaults(); GeneralExceptionOutput(FormatException)
        case Some(m) => Emit(Debug, Ended(Text.Chars(' ', 6) + AddIndent(addIndent) + m, newLineAfter))
    }

    method LogDebug(format: string, addIndent: bool, newLineAfter: bool, args: seq<string>)
      modifies logger
      decreases 0, 3, 0, 0
      ensures logger.entries == old(logger.entries) + DebugOutput(format, addIndent, newLineAfter, args).entries
    {
      var text := format;
      if args != [] {
        var formatted := Text.Format(format, args);
        if formatted.None? {
          ConstantFaults();
          FaultRoutedToGeneral(serializer.Current(), FormatException);
          var _ := LogException(FormatException);
          return;
        }
        text := formatted.value;
      }
      var message := Text.Chars(' ', 6) + AddIndent(addIndent) + text;
      if newLineAfter {
        message := message + newLine;
      }
      logger.Log(Debug, message);
    }

    /** `LogObject<T>` at a nesting depth: nothing for an ignored or null
        object; otherwise the problem the serializer returns is logged first,
        then the JSON under its label, at Trace level, when it is not null
        or white space. Nothing escapes. */
    function ObjectOutputAt(js: SerializerSettings, fuel: nat, obj: Option<Obj>, t: TypeArg, ignore: bool, keepNulls: bool,
                            labelText: Option<string>, addIndent: bool, newLineAfter: bool): (r: Emission)
      decreases fuel, 3
      ensures r.thrown.None?
      ensures ignore || obj.None? ==> r == Nothing
    {
      if ignore || obj.None? then Nothing
      else
        var outcome := Json.ToJson(foreign, t, obj, js.read, js.write);
        (if outcome.problemDetails.Some? then ProblemDetailsOutputAt(js, fuel, outcome.problemDetails) else Nothing)
          .Then(if Text.IsNullOrWhiteSpace(outcome.formattedJson) then Nothing
                else TraceOutput(AddIndent(addIndent) + labelText.GetOr("") + ":" + newLine + outcome.formattedJson.value,
                                 false, newLineAfter, []))
    }

    method LogObjectAt(fuel: nat, obj: Option<Obj>, t: TypeArg, ignore: bool, keepNulls: bool,
                       labelText: Option<string>, addIndent: bool, newLineAfter: bool)
      modifies logger
      decreases 1, 0, fuel, 3
      ensures logger.entries
              == old(logger.entries) + ObjectOutputAt(serializer.Current(), fuel, obj, t, ignore, keepNulls, labelText, addIndent, newLineAfter).entries
    {
      if ignore || obj.None? {
        return;
      }
      var outcome := serializer.ToJson(foreign, t, obj, keepNulls);
      if outcome.problemDetails.Some? {
        LogProblemDetailsAt(fuel, outcome.problemDetails);
      }
      if Text.IsNullOrWhiteSpace(outcome.formattedJson) {
        return;
      }
      var _ := LogTrace(AddIndent(addIndent) + labelText.GetOr("") + ":" + newLine + outcome.formattedJson.value,
                        false, newLineAfter, []);
    }

    /** The status line of a problem: reading the title of a null status or
        of a code missing from the table throws. */
    function StatusLine(p: ProblemDetails): (r: Result<string, Exception>)
      ensures r.Failure? ==> IsRuntimeFault(r.error)
      ensures r.Success? <==> p.status.Some? && foreign.statusTitle(p.status.value).Some?
    {
      ConstantFaults();
      if p.status.None? then Failure(ArgumentNullException)
      else
        match foreign.statusTitle(p.status.value)
        case None => Failure(KeyNotFoundException)
        case Some(title) =>
          Success("Status Code: " + Indent + Text.IntToString(p.status.value) + " - " + title)
    }

    /** The `try` block of `LogProblemDetails`: the warnings, the debug
        lines, then the two dictionaries. */
    function ProblemDetailsBody(js: SerializerSettings, fuel: nat, p: ProblemDetails): (r: Emission)
      decreases fuel, 1
      ensures ThrowsFaultsOnly(r)
    {
      ProblemDetailsHead(p).Then(ProblemDetailsLines(p)).Then(DictionariesOutput(js, fuel, p))
    }

    /** The three warnings: the heading, the title and the detail, each
        quoted, a null member quoted as empty. */
    function ProblemDetailsHead(p: ProblemDetails): (r: Emission)
      ensures ThrowsFaultsOnly(r)
    {
      WarningOutput("PROBLEMDETAILS", true, false, [])
        .Then(WarningOutput("Title: '" + p.title.GetOr("") + "'", true, false, []))
        .Then(WarningOutput("Detail: '" + p.detail.GetOr("") + "'", true, false, []))
    }

    /** The status line, which may throw, then the instance and type lines,
        at Debug level. */
    function ProblemDetailsLines(p: ProblemDetails): (r: Emission)
      ensures ThrowsFaultsOnly(r)
    {
      (match StatusLine(p)
       case Failure(x) => Throw(x)
       case Success(line) => DebugOutput(line, true, false, []))
        .Then(DebugOutput("Instance URL: " + Indent + "'" + p.instance.GetOr("") + "'", true, false, []))
        .Then(DebugOutput("Type Info: " + Indent + "'" + p.problemType.GetOr("") + "'", true, false, []))
    }

    /** The errors and the extensions dictionaries, each logged as an
        object one level deeper; nothing once the nesting depth is used up. */
    function DictionariesOutput(js: SerializerSettings, fuel: nat, p: ProblemDetails): (r: Emission)
      decreases fuel, 0
      ensures r.thrown.None?
      ensures fuel == 0 ==> r == Nothing
    {
      if fuel == 0 then Nothing
      else
        DictionaryOutput(js, fuel - 1, p.errors, ErrorsType, ErrorsHeading, false)
          .Then(DictionaryOutput(js, fuel - 1, p.extensions, ExtensionsType, ExtensionsHeading, true))
    }

    /** One dictionary of a problem: logged as an object, never ignored,
        nulls dropped, under its label. */
    function DictionaryOutput(js: SerializerSettings, depth: nat, d: Option<Obj>, t: TypeArg, heading: Option<string>,
                              newLineAfter: bool): (r: Emission)
      decreases depth, 4
      ensures r.thrown.None?
      ensures d.None? ==> r == Nothing
    {
      ObjectOutputAt(js, depth, d, t, false, false, heading, true, newLineAfter)
    }

    /** `LogProblemDetails` at a nesting depth: nothing for a null problem;
        otherwise the title and detail warnings, the status, instance and
        type lines, then the two dictionaries; whatever throws on the way
        is handed to `LogException` after what was written; it is always a
        runtime fault, which the general handler logs
        (`FaultRoutedToGeneral`). Nothing escapes. */
    function ProblemDetailsOutputAt(js: SerializerSettings, fuel: nat, pd: Option<ProblemDetails>): (r: Emission)
      decreases fuel, 2
      ensures r.thrown.None?
      ensures pd.None? ==> r == Nothing
    {
      if pd.None? then Nothing
      else
        var body := ProblemDetailsBody(js, fuel, pd.value);
        if body.thrown.Some? then Emission(body.entries, None).Then(GeneralExceptionOutput(body.thrown.value))
        else body
    }

    method LogProblemDetailsAt(fuel: nat, pd: Option<ProblemDetails>)
      modifies logger
      decreases 1, 0, fuel, 2
      ensures logger.entries == old(logger.entries) + ProblemDetailsOutputAt(serializer.Current(), fuel, pd).entries
    {
      if pd.None? {
        return;
      }
      var p := pd.value;
      ghost var js := serializer.Current();
      assert logger as object !in {serializer.readJsonOptions as object, serializer.writeJsonOptions};
      ghost var body := ProblemDetailsBody(js, fuel, p);
      var thrown := LogProblemDetailsBody(fuel, p);
      assert js == serializer.Current();
      if thrown.Some? {
        FaultRoutedToGeneral(js, thrown.value);
        ghost var general := GeneralExceptionOutput(thrown.value);
        var _ := LogException(thrown.value);
        assert js == serializer.Current();
        AppendedTwice(old(logger.entries), body.entries, general.entries);
      }
    }

    method LogProblemDetailsBody(fuel: nat, p: ProblemDetails) returns (thrown: Option<Exception>)
      modifies logger
      decreases 1, 0, fuel, 1
      ensures var o := ProblemDetailsBody(serializer.Current(), fuel, p);
              logger.entries == old(logger.entries) + o.entries && thrown == o.thrown
    {
      ghost var js := serializer.Current();
      ghost var head := ProblemDetailsHead(p);
      ghost var lines := ProblemDetailsLines(p);
      ghost var dictionaries := DictionariesOutput(js, fuel, p);
      assert ProblemDetailsBody(js, fuel, p) == head.Then(lines.Then(dictionaries)) by {
        ThenAssociative(head, lines, dictionaries);
      }
      thrown := LogProblemDetailsHead(p);
      if thrown.Some? {
        return;
      }
      ghost var afterHead := logger.entries;
      thrown := LogProblemDetailsLines(p);
      if thrown.Some? {
        return;
      }
      ghost var afterLines := logger.entries;
      LogDictionaries(fuel, p);
      assert js == serializer.Current();
      assert logger.entries == afterLines + dictionaries.entries;
      assert afterLines == afterHead + lines.entries;
      assert afterHead == old(logger.entries) + head.entries;
      AppendedInTurn(old(logger.entries), head.entries, lines.entries, dictionaries.entries);
    }

    method LogProblemDetailsHead(p: ProblemDetails) returns (thrown: Option<Exception>)
      modifies logger
      ensures var o := ProblemDetailsHead(p);
              logger.entries == old(logger.entries) + o.entries && thrown == o.thrown
    {
      thrown := LogWarning("PROBLEMDETAILS", true, false, []);
      if thrown.Some? {
        return;
      }
      thrown := LogWarning("Title: '" + p.title.GetOr("") + "'", true, false, []);
      if thrown.Some? {
        return;
      }
      thrown := LogWarning("Detail: '" + p.detail.GetOr("") + "'", true, false, []);
    }

    method LogProblemDetailsLines(p: ProblemDetails) returns (thrown: Option<Exception>)
      modifies logger
      decreases 0, 4, 0, 0
      ensures var o := ProblemDetailsLines(p);
              logger.entries == old(logger.entries) + o.entries && thrown == o.thrown
    {
      var status := StatusLine(p);
      if status.Failure? {
        return Some(status.error);
      }
      LogDebug(status.value, true, false, []);
      LogDebug("Instance URL: " + Indent + "'" + p.instance.GetOr("") + "'", true, false, []);
      LogDebug("Type Info: " + Indent + "'" + p.problemType.GetOr("") + "'", true, false, []);
      thrown := None;
    }

    method LogDictionaries(fuel: nat, p: ProblemDetails)
      modifies logger
      decreases 1, 0, fuel, 0
      ensures logger.entries == old(logger.entries) + DictionariesOutput(serializer.Current(), fuel, p).entries
    {
      if fuel == 0 {
        assert logger.entries == old(logger.entries) + [];
        return;
      }
      ghost var js := serializer.Current();
      ghost var errors := DictionaryOutput(js, fuel - 1, p.errors, ErrorsType, ErrorsHeading, false);
      ghost var extensions := DictionaryOutput(js, fuel - 1, p.extensions, ExtensionsType, ExtensionsHeading, true);
      LogDictionary(fuel - 1, p.errors, ErrorsType, ErrorsHeading, false);
      assert js == serializer.Current();
      LogDictionary(fuel - 1, p.extensions, ExtensionsType, ExtensionsHeading, true);
      assert js == serializer.Current();
      AppendedTwice(old(logger.entries), errors.entries, extensions.entries);
    }

    method LogDictionary(depth: nat, d: Option<Obj>, t: TypeArg, heading: Option<string>, newLineAfter: bool)
      modifies logger
      decreases 1, 0, depth, 4
      ensures logger.entries == old(logger.entries) + DictionaryOutput(serializer.Current(), depth, d, t, heading, newLineAfter).entries
    {
      LogObjectAt(depth, d, t, false, false, heading, true, newLineAfter);
    }

    /** `LogObject<T>(obj, ignore, keepNulls, labelText, addIndent, newLineAfter)`. */
    method LogObject(obj: Option<Obj>, t: TypeArg, ignore: bool, keepNulls: bool, labelText: Option<string>,
                     addIndent: bool, newLineAfter: bool)
      modifies logger
      ensures logger.entries == old(logger.entries)
              + ObjectOutputAt(serializer.Current(), nestingFuel, obj, t, ignore, keepNulls, labelText, addIndent, newLineAfter).entries
    {
      LogObjectAt(nestingFuel, obj, t, ignore, keepNulls, labelText, addIndent, newLineAfter);
    }

    /** `LogProblemDetails(problemDetails)`. */
    method LogProblemDetails(pd: Option<ProblemDetails>)
      modifies logger
      ensures logger.entries == old(logger.entries) + ProblemDetailsOutputAt(serializer.Current(), nestingFuel, pd).entries
    {
      LogProblemDetailsAt(nestingFuel, pd);
    }

    // --------------------------------------------------------- structural

    /** A divider: the empty text padded to the width with the pattern,
        written by `LogInfo` with its indent and a line end. */
    function DividerOutput(padLength: int, padString: string): (r: Emission)
      ensures ThrowsFaultsOnly(r)
    {
      InfoOutput(StringExtensions.PadRight(Some(""), padLength, Some(padString)), true, true, [])
    }

    method LogLongDividerLine() returns (thrown: Option<Exception>)
      modifies logger
      ensures var o := DividerOutput(longDividerLinesPadLength, longDividerLinesPadString);
              logger.entries == old(logger.entries) + o.entries && thrown == o.thrown
    {
      var dividerLine := StringExtensions.PadRight(Some(""), longDividerLinesPadLength, Some(longDividerLinesPadString));
      thrown := LogInfo(dividerLine, true, true, []);
    }

    method LogShortDividerLine() returns (thrown: Option<Exception>)
      modifies logger
      ensures var o := DividerOutput(shortDividerLinesPadLength, shortDividerLinesPadString);
              logger.entries == old(logger.entries) + o.entries && thrown == o.thrown
    {
      var dividerLine := StringExtensions.PadRight(Some(""), shortDividerLinesPadLength, Some(shortDividerLinesPadString));
      thrown := LogInfo(dividerLine, true, true, []);
    }

    /** A titled line: the formatted, trimmed title and one space, padded
        to the width with the pattern, then written by `LogInfo`, which
        formats the padded text a second time. */
    function TitledOutput(format: string, args: seq<string>, padLength: int, padString: string): (r: Emission)
      ensures ThrowsFaultsOnly(r)
      ensures Text.Format(format, args).None? ==> r == Throw(FormatException)
    {
      ConstantFaults();
      match Text.Format(format, args)
      case None => Throw(FormatException)
      case Some(m) => InfoOutput(StringExtensions.PadRight(Some(Text.Trim(m) + " "), padLength, Some(padString)),
                                 true, true, [])
    }

    method LogTitled(format: string, args: seq<string>, padLength: int, padString: string)
      returns (thrown: Option<Exception>)
      modifies logger
      ensures var o := TitledOutput(format, args, padLength, padString);
              logger.entries == old(logger.entries) + o.entries && thrown == o.thrown
    {
      var formatted := Text.Format(format, args);
      if formatted.None? {
        return Some(FormatException);
      }
      var message := Text.Trim(formatted.value) + " ";
      var paddedMessage := StringExtensions.PadRight(Some(message), padLength, Some(padString));
      thrown := LogInfo(paddedMessage, true, true, []);
    }

    method LogSection(format: string, args: seq<string>) returns (thrown: Option<Exception>)
      modifies logger
      ensures var o := TitledOutput(format, args, sectionLinesPadLength, sectionLinesPadString);
              logger.entries == old(logger.entries) + o.entries && thrown == o.thrown
    {
      thrown := LogTitled(format, args, sectionLinesPadLength, sectionLinesPadString);
    }

    method LogSubsection(format: string, args: seq<string>) returns (thrown: Option<Exception>)
      modifies logger
      ensures var o := TitledOutput(format, args, subsectionLinesPadLength, subsectionLinesPadString);
              logger.entries == old(logger.entries) + o.entries && thrown == o.thrown
    {
      thrown := LogTitled(format, args, subsectionLinesPadLength, subsectionLinesPadString);
    }

    method LogHeader(format: string, addStart: bool, args: seq<string>) returns (thrown: Option<Exception>)
      modifies logger
      ensures var o := TitledOutput(format + (if addStart then " - Start" else ""), args,
                                    headerLinesPadLength, headerLinesPadString);
              logger.entries == old(logger.entries) + o.entries && thrown == o.thrown
    {
      var title := format;
      if addStart {
        title := title + " - Start";
      }
      assert title == format + (if addStart then " - Start" else "");
      thrown := LogTitled(title, args, headerLinesPadLength, headerLinesPadString);
    }

    method LogFooter(format: string, addEnd: bool, args: seq<string>) returns (thrown: Option<Exception>)
      modifies logger
      ensures var o := TitledOutput(format + (if addEnd then " - End" else ""), args,
                                    footerLinesPadLength, footerLinesPadString);
              logger.entries == old(logger.entries) + o.entries && thrown == o.thrown
    {
      var title := format;
      if addEnd {
        title := title + " - End";
      }
      assert title == format + (if addEnd then " - End" else "");
      thrown := LogTitled(title, args, footerLinesPadLength, footerLinesPadString);
    }
  }
}
