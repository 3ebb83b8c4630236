# FancyLogger in Dafny

A model of the core of XamarinFiles' FancyLogger, a .NET logging library
layered on `Microsoft.Extensions.Logging`. The library has two generations
of logger:

- `FancyLogger` is the current class. It is configured by a
  `FancyLoggerOptions` object of `LinePrefix` / `LinePadding` records and
  pads its structural lines with a repeated string. The padding goes
  through the `StringExtensions.PadRight` helper.
- `FancyLoggerService` is the older class. It is configured by constructor
  arguments and pads with a single character.

Each generation writes debug, error, information, scalar, trace and
warning lines. Each also writes exceptions, routed by type, and Refit
`ProblemDetails` records. Objects are written as JSON through a
`Serializer`. Structural lines are dividers, sections, headers, footers
and horizontal lines.

On top of the loggers sit `AssemblyLogger` and `AssemblyLoggerService`.
They write a report of the organisation's assemblies: the executing
assembly, then the sorted domain assemblies, each followed by its sorted
referenced assemblies. The report gives the name, version, framework,
culture and public key token or location of each assembly.

How the model is built:

- An `ILogger` is a `Sinks.Sink` object. Its `entries` field is the list
  of `(level, text)` lines written so far. A sink can be shared between
  loggers.
- A `Log*` method of a logger is a Dafny `method` that appends to the sink.
- Beside each method is a function (`...Output`) giving an `Emission`:
  the entries the call appends, and the exception that escapes after
  them, if any. The method's `ensures` ties the sink's new contents and
  the returned exception to that function.
- The lemmas and the functions' own contracts then state what the output
  is:
  - which lines appear;
  - at which level and with which prefix;
  - when a line is left out;
  - which exceptions can stop a call.
- `string.Format` is `Text.Format`. It supports the `{{`, `}}` and `{n}`
  forms; any other use of a brace is the `FormatException` the runtime
  throws.
- The foreign calls (System.Text.Json parse, cast and serialize, Refit's
  `ExtractRefitProblemDetails`, the `HttpStatusDetails` title lookup and
  `Path.GetDirectoryName`) are function-valued parameters.
- `Environment.NewLine` is a constructor parameter, either `"\n"` or
  `"\r\n"`.
- Reflection is replaced by `Assembly` / `AssemblyName` records passed in.

## Model

| member | source | states |
|---|---|---|
| Sinks.Sink.constructor | FancyLogger/LoggerCreator.cs:20-28 | a new sink carries its category name and holds no lines |
| Sinks.Sink.Log | FancyLogger/LoggerCreator.cs:25 | writing a line appends exactly that level and text to the sink and changes nothing else |
| Sinks.Emission.Then | FancyLogger/FancyLogger.cs:203-214 | two logging calls in turn: once the first throws, the second writes nothing and its exception is the one that escapes; otherwise the entries are concatenated and the second call's exception escapes |
| Sinks.ThenAssociative | FancyLogger/FancyLogger.cs:187-201 | a sequence of three calls behaves the same however it is grouped |
| Sinks.ThenNothing | FancyLogger/FancyLogger.cs:196-197 | a call that writes and throws nothing (an early `return`) is neutral on either side of another call |
| Sinks.InTurnFaultsOnly | FancyLogger.Extensions/AssemblyLogger.cs:83-99 | calls made in turn, none of which lets anything but a runtime fault escape, let only runtime faults escape |
| Sinks.InTurnStep | FancyLogger.Extensions/AssemblyLogger.cs:95-98 | the calls from index i onward are call i followed by the calls after it |
| Sinks.InTurnEntries | FancyLogger.Extensions/AssemblyLogger.cs:95-98 | every line written by calls in turn was written by one of the calls |
| Text.TrimStart | FancyLogger/FancyLogger.cs:461 | the result is a suffix of the input, all that was cut is white space, and it does not start with white space |
| Text.TrimEnd | FancyLogger/FancyLogger.cs:461 | the result is a prefix of the input, all that was cut is white space, and it does not end with white space |
| Text.Trim | FancyLogger/FancyLogger.cs:461 | `string.Trim()`: the result is a slice of the input with only white space cut off both ends, and it neither starts nor ends with white space |
| Text.TrimIdempotent | FancyLogger/FancyLogger.cs:461 | trimming twice is trimming once |
| Text.TrimOfTrimmed | FancyLogger/FancyLogger.cs:461 | a text without white space at either end is unchanged by trimming |
| Text.Chars | FancyLogger/FancyLogger.cs:285 | `new string(c, n)` with n known non-negative: n copies of c |
| Text.NewString | FancyLogger/FancyLoggerService.cs:199 | `new string(c, count)` fails exactly when the count is negative, and otherwise is count copies of c |
| Text.PadRightChar | FancyLogger/FancyLoggerService.cs:190-192 | `String.PadRight(int, char)` fails exactly for a negative width; otherwise it keeps the text, then fills with the character up to the width, and never shortens the text |
| Text.IntToString | FancyLogger/FancyLogger.cs:414 | an integer rendered in an interpolated string holds no brace |
| Text.NullableIntToString | FancyLogger/FancyLogger.cs:414 | a null `int?` renders as the empty text, and no rendering holds a brace |
| Text.NatToString | FancyLogger/FancyLogger.cs:414 | a natural number renders as one or more decimal digits |
| Text.DecimalValueOfNatToString | FancyLogger/FancyLogger.cs:414 | reading back the digits of a rendered natural number gives the number |
| Text.DigitRun | FancyLogger/FancyLogger.cs:317 | the length of the run of decimal digits at the start of a text: all digits, and the next character is not one |
| Text.Prepend | FancyLogger/FancyLogger.cs:317 | literal text before a format succeeds exactly when the rest succeeds, and is kept in front |
| Text.FormatWithoutBraces | FancyLogger/FancyLogger.cs:317 | `string.Format` on a text with no brace returns it unchanged, whatever the arguments |
| Text.FormatPlain | FancyLogger/FancyLogger.cs:317 | the same property, stated as an implication for use in contracts |
| Text.FormatPlainPrefix | FancyLogger/FancyLogger.cs:317 | a brace-free prefix is copied, and the remainder decides success |
| Text.FormatEscaped | FancyLogger/FancyLogger.cs:317 | formatting a text whose braces are doubled gives back the text: escaping and `string.Format` form a round trip |
| Text.EscapeBraces | FancyLogger/FancyLogger.cs:317 | escaping braces never shortens a text |
| Text.FormatOneDigitPlaceholder | FancyLogger/FancyLogger.cs:317 | `{n}` with an argument at index n is replaced by that argument |
| Text.FormatMissingArgument | FancyLogger/FancyLogger.cs:317 | `{n}` with fewer than n+1 arguments throws |
| Text.FormatPlaceholder | FancyLogger/FancyLogger.cs:317 | `{1}-{0}` swaps its two arguments |
| Text.LoneOpeningBraceThrows | FancyLogger/FancyLogger.cs:317 | a lone `{` and a brace around a non-number throw |
| Text.FormatEscapedPlaceholder | FancyLogger/FancyLogger.cs:461 | `{{0}}` formats to the literal `{0}` |
| Text.PlaceholderWithoutArgumentsThrows | FancyLogger/FancyLogger.cs:317 | `{0}` with no arguments throws |
| Exceptions.RouteByType | FancyLogger/FancyLogger.cs:158-183 | every exception matches one case of the switch, and the first match sends API exceptions (validation ones included) to the API handler, HTTP request exceptions to the HTTP handler, JSON exceptions to the JSON handler, and nothing else anywhere but the general handler |
| Exceptions.HttpInnerLabelCases | FancyLogger/FancyLogger.cs:232-259 | a refused socket connection and a failed name resolution are labelled with their own text and a ServiceUnavailable status; any other inner exception, or none, is labelled "INNER EXCEPTION" with no status |
| Exceptions.CommonWarnings | FancyLogger/FancyLogger.cs:203-214 | the outer label and message always, then the indented inner label and message exactly when the inner message is neither null nor white space |
| Exceptions.JsonPositionWarnings | FancyLogger/FancyLogger.cs:269-271 | a JSON exception adds exactly two texts; the position text never holds a brace, so it always formats; the path text holds one exactly when the path does |
| Exceptions.OperationWarning | FancyLogger/FancyLogger.cs:189-194 | the operation line exists exactly when the request is present; a null request is a NullReferenceException |
| StringExtensions.Repeated | FancyLogger/Helpers/StringExtensions.cs:41-55 | `count` copies of the text: the length is the text's length times the count |
| StringExtensions.RepeatedBlock | FancyLogger/Helpers/StringExtensions.cs:47-52 | block k of the repetition is the text |
| StringExtensions.RepeatedAt | FancyLogger/Helpers/StringExtensions.cs:41-55 | character i of the repetition is character i mod length of the text |
| StringExtensions.CopyTo | FancyLogger/Helpers/StringExtensions.cs:49-51 | copying into a slice of the span writes the text there and leaves the rest of the span as it was |
| StringExtensions.Repeat | FancyLogger/Helpers/StringExtensions.cs:41-55 | the span filled block by block holds exactly `count` copies of the text |
| StringExtensions.CeilDiv | FancyLogger/Helpers/StringExtensions.cs:30-31 | the rounded-up quotient: the smallest number of blocks that covers the padding |
| StringExtensions.PaddingCountCovers | FancyLogger/Helpers/StringExtensions.cs:30-34 | that many copies of the pattern reach the width, and one fewer would not, so the `Substring` cut is always in range |
| StringExtensions.PadRight | FancyLogger/Helpers/StringExtensions.cs:8-37 | a null text is empty; with an empty or null pattern, or a width not above the text's length, the text comes back unchanged; otherwise the result has exactly the width, starts with the text, and continues with the pattern repeated from its start |
| StringExtensions.PadRightLength | FancyLogger/Helpers/StringExtensions.cs:8-37 | with a non-empty pattern the length is the larger of the width and the text's length |
| StringExtensions.PadRightIsTiled | FancyLogger/Helpers/StringExtensions.cs:20-36 | the one-character branch and the repeat-and-cut branch agree with a single tiling definition |
| StringExtensions.NullTextIsEmpty | FancyLogger/Helpers/StringExtensions.cs:11 | padding null is padding the empty text |
| StringExtensions.PadRightExamples | FancyLogger/Helpers/StringExtensions.cs:8-37 | "AB" padded to 7 with "-=" is "AB-=-=-", and "Header" padded to 10 with "#" is "Header####" |
| LoggerOptions.LinePadding.constructor | FancyLogger/FancyLoggerOptions.cs:72-77 | a record holding the width and the pattern given |
| LoggerOptions.LinePrefix.constructor | FancyLogger/FancyLoggerOptions.cs:63-67 | a record holding the prefix, the width and the pattern given |
| LoggerOptions.FancyLoggerOptions.constructor | FancyLogger/FancyLoggerOptions.cs:9-58 | seven fresh records holding the declared defaults, the six padding records being six different objects |
| Options.FancyLoggerOptions.constructor | FancyLogger/Options/FancyLoggerOptions.cs:8-57 | seven fresh records holding the same declared defaults |
| Json.NewDefaultReadOptions | FancyLogger/FancyLogger.cs:36-42 | fresh options that allow trailing commas, read numbers from strings and ignore property-name case, all else default |
| Json.NewDefaultWriteOptions | FancyLogger/FancyLogger.cs:44-48 | fresh options that indent their output, all else default |
| Json.JsonSerializerOptions.SetDefaultIgnoreCondition | FancyLogger/Helpers/Serializer.cs:25-26 | setting the ignore condition changes that one setting of the object |
| Json.ToJson | FancyLogger/Serializer.cs:38-118 | exactly one of the JSON and the problem is present; a null object gives the empty JSON; a string asked for as a string comes back unchanged |
| Json.ToJsonFailures | FancyLogger/Serializer.cs:49-117 | a failed parse, a null parse result, a failed cast and a failed serialization each end the call with the problem extracted from that exception, with a message quoting the offending text; a successful serialization returns its text |
| Json.DebugMessageQuotes | FancyLogger/Serializer.cs:71 | the developer message opens with the action and ends with the offending text, unaltered, between double quotes |
| Json.TypedSources | FancyLogger/Serializer.cs:49-97 | the typed object comes from the parser for a string and from the cast otherwise |
| RootSerializer.Serializer.constructor | FancyLogger/Serializer.cs:19-24 | the serializer keeps the two option objects it is given |
| RootSerializer.Serializer.ToJson | FancyLogger/Serializer.cs:38-118 | `ToJson<T>` with the serializer's current read and write settings; exactly one of the two results is present |
| RootSerializer.Serializer.KeepNullsIgnored | FancyLogger/Serializer.cs:99-104 | the `keepNulls` argument does not change the result |
| HelpersSerializer.Serializer.constructor | FancyLogger/Helpers/Serializer.cs:20-32 | both "with nulls" and "without nulls" are the one write options object passed in, left with nulls ignored |
| HelpersSerializer.Serializer.CheckKeepNullsToggle | FancyLogger/Helpers/Serializer.cs:132-137 | `keepNulls` picks the "with nulls" options, otherwise the "without nulls" ones |
| HelpersSerializer.Serializer.ToJson | FancyLogger/Helpers/Serializer.cs:48-130 | `ToJson<T>` with the shared read settings and the toggled write settings; exactly one of the two results is present |
| HelpersSerializer.Serializer.KeepNullsHasNoEffect | FancyLogger/Helpers/Serializer.cs:25-31 | as written, the result is the same whether nulls are kept or not |
| HelpersSerializer.Serializer.WithNullsDropsNulls | FancyLogger/Helpers/Serializer.cs:25-31 | as written, the "with nulls" options ignore nulls when writing |
| HelpersSerializer.CopyingSerializer.constructor | FancyLogger/Helpers/Serializer.cs:20-32 | the "with nulls" options are a fresh copy that never ignores nulls; the caller's object ignores nulls and serves as "without nulls" |
| HelpersSerializer.CopyingSerializer.ToJson | FancyLogger/Helpers/Serializer.cs:48-130 | `ToJson<T>` with the shared read settings and the toggled write settings |
| HelpersSerializer.CopyingSerializer.KeepNullsSelectsCondition | FancyLogger/Helpers/Serializer.cs:132-137 | keeping nulls serializes with `Never`, dropping them with `WhenWritingNull` |
| FancyLogging.FancyLoggerStatics.constructor | FancyLogger/FancyLogger.cs:33-48 | the shared default options object with its declared defaults, and the shared read and write JSON options |
| FancyLogging.FancyLogger.constructor | FancyLogger/FancyLogger.cs:58-113 | missing options fall back on the shared defaults; a non-blank prefix and a given pad length are written into the options object's `AllLines` record, where other holders see them; the shorthand properties are read back from the options; without a sink a new one is named by the padded prefix and told "Logger created" |
| FancyLogging.FancyLogger.WarningOutput | FancyLogger/FancyLogger.cs:383-394 | one Warning line, or a FormatException before anything is written exactly when the format is rejected |
| FancyLogging.FancyLogger.LogWarning | FancyLogger/FancyLogger.cs:383-394 | appends what WarningOutput gives and returns its exception |
| FancyLogging.FancyLogger.InfoOutput | FancyLogger/FancyLogger.cs:313-322 | one Information line, or a FormatException exactly when the format is rejected |
| FancyLogging.FancyLogger.LogInfo | FancyLogger/FancyLogger.cs:313-322 | appends what InfoOutput gives and returns its exception |
| FancyLogging.FancyLogger.ErrorOutput | FancyLogger/FancyLogger.cs:306-311 | the format with the newline appended, formatted, at Error level; a FormatException exactly when that format is rejected |
| FancyLogging.FancyLogger.LogError | FancyLogger/FancyLogger.cs:306-311 | appends what ErrorOutput gives and returns its exception |
| FancyLogging.FancyLogger.TraceOutput | FancyLogger/FancyLogger.cs:364-381 | without arguments the text is written as it is, six spaces in; with arguments it is formatted, and it throws exactly when they are given and the format is rejected |
| FancyLogging.FancyLogger.LogTrace | FancyLogger/FancyLogger.cs:364-381 | appends what TraceOutput gives and returns its exception |
| FancyLogging.FancyLogger.ScalarOutput | FancyLogger/FancyLogger.cs:351-362 | exactly one Trace line and never an exception |
| FancyLogging.FancyLogger.LogScalar | FancyLogger/FancyLogger.cs:351-362 | appends the scalar line |
| FancyLogging.FancyLogger.Warnings | FancyLogger/FancyLogger.cs:206-213 | warnings written in turn throw at most a FormatException, and none when no text holds a brace, in which case each text is written behind the warning prefix |
| FancyLogging.FancyLogger.WarningEntries | FancyLogger/FancyLogger.cs:206-213 | one Warning line per text, four spaces and an indent in, ended by the newline |
| FancyLogging.FancyLogger.LogWarnings | FancyLogger/FancyLogger.cs:206-213 | appends what Warnings gives, stopping at the first exception |
| FancyLogging.FancyLogger.WarningsStep | FancyLogger/FancyLogger.cs:206-213 | the warnings from index i onward are warning i followed by the rest |
| FancyLogging.FancyLogger.CommonExceptionOutput | FancyLogger/FancyLogger.cs:203-214 | only runtime faults can escape |
| FancyLogging.FancyLogger.LogCommonException | FancyLogger/FancyLogger.cs:203-214 | appends what CommonExceptionOutput gives and returns its exception |
| FancyLogging.FancyLogger.GeneralExceptionOutput | FancyLogger/FancyLogger.cs:216-219 | only runtime faults escape, and logging a runtime fault never throws |
| FancyLogging.FancyLogger.LogGeneralException | FancyLogger/FancyLogger.cs:216-219 | appends what GeneralExceptionOutput gives |
| FancyLogging.FancyLogger.HttpRequestExceptionOutput | FancyLogger/FancyLogger.cs:222-263 | only runtime faults can escape |
| FancyLogging.FancyLogger.LogHttpRequestException | FancyLogger/FancyLogger.cs:222-263 | appends the common lines with the label HttpInnerLabelCases picks |
| FancyLogging.FancyLogger.JsonExceptionOutput | FancyLogger/FancyLogger.cs:265-272 | only runtime faults can escape |
| FancyLogging.FancyLogger.LogJsonException | FancyLogger/FancyLogger.cs:265-272 | appends the common lines, then the position and path lines, stopping at the first exception |
| FancyLogging.FancyLogger.ApiExceptionOutput | FancyLogger/FancyLogger.cs:187-201 | only runtime faults can escape |
| FancyLogging.FancyLogger.OperationOutput | FancyLogger/FancyLogger.cs:189-194 | a null request throws NullReferenceException before anything is written |
| FancyLogging.FancyLogger.ContentOutput | FancyLogger/FancyLogger.cs:196-200 | never throws, and null or blank content writes nothing |
| FancyLogging.FancyLogger.LogApiException | FancyLogger/FancyLogger.cs:187-201 | appends what ApiExceptionOutput gives and returns its exception |
| FancyLogging.FancyLogger.ExceptionOutput | FancyLogger/FancyLogger.cs:158-183 | only runtime faults escape, and routing a runtime fault never throws |
| FancyLogging.FancyLogger.LogException | FancyLogger/FancyLogger.cs:158-183 | appends what ExceptionOutput gives and returns its exception |
| FancyLogging.FancyLogger.FaultRoutedToGeneral | FancyLogger/FancyLogger.cs:178-179 | a runtime fault goes to the general handler and its logging does not throw |
| FancyLogging.FancyLogger.DebugOutput | FancyLogger/FancyLogger.cs:278-304 | never throws, because a failure is caught and logged; without arguments the text is written unformatted, six spaces in |
| FancyLogging.FancyLogger.LogDebug | FancyLogger/FancyLogger.cs:278-304 | appends what DebugOutput gives |
| FancyLogging.FancyLogger.ObjectOutputAt | FancyLogger/FancyLogger.cs:324-349 | never throws; an ignored or null object writes nothing |
| FancyLogging.FancyLogger.LogObjectAt | FancyLogger/FancyLogger.cs:324-349 | appends what ObjectOutputAt gives |
| FancyLogging.FancyLogger.LogObject | FancyLogger/FancyLogger.cs:324-349 | appends what ObjectOutputAt gives at the logger's nesting depth |
| FancyLogging.FancyLogger.StatusLine | FancyLogger/FancyLogger.cs:414-415 | the status line exists exactly when the status is present and has a title; otherwise the failure is a runtime fault |
| FancyLogging.FancyLogger.ProblemDetailsBody | FancyLogger/FancyLogger.cs:406-427 | only runtime faults can escape the body of the `try` |
| FancyLogging.FancyLogger.ProblemDetailsHead | FancyLogger/FancyLogger.cs:408-412 | only runtime faults can escape the three warnings |
| FancyLogging.FancyLogger.ProblemDetailsLines | FancyLogger/FancyLogger.cs:414-420 | only runtime faults can escape the three debug lines |
| FancyLogging.FancyLogger.DictionariesOutput | FancyLogger/FancyLogger.cs:422-427 | writing the two dictionaries never throws; once the nesting depth is used up they write nothing |
| FancyLogging.FancyLogger.DictionaryOutput | FancyLogger/FancyLogger.cs:422-427 | one dictionary never throws, and a null one writes nothing |
| FancyLogging.FancyLogger.ProblemDetailsOutputAt | FancyLogger/FancyLogger.cs:401-433 | never throws, because the `catch` logs the failure; a null record writes nothing |
| FancyLogging.FancyLogger.LogProblemDetailsAt | FancyLogger/FancyLogger.cs:401-433 | appends what ProblemDetailsOutputAt gives |
| FancyLogging.FancyLogger.LogProblemDetailsBody | FancyLogger/FancyLogger.cs:406-427 | appends what ProblemDetailsBody gives and returns its exception |
| FancyLogging.FancyLogger.LogProblemDetailsHead | FancyLogger/FancyLogger.cs:408-412 | appends what ProblemDetailsHead gives and returns its exception |
| FancyLogging.FancyLogger.LogProblemDetailsLines | FancyLogger/FancyLogger.cs:414-420 | appends what ProblemDetailsLines gives and returns its exception |
| FancyLogging.FancyLogger.LogDictionaries | FancyLogger/FancyLogger.cs:422-427 | appends what DictionariesOutput gives |
| FancyLogging.FancyLogger.LogDictionary | FancyLogger/FancyLogger.cs:422-427 | appends what DictionaryOutput gives |
| FancyLogging.FancyLogger.LogProblemDetails | FancyLogger/FancyLogger.cs:401-433 | appends what ProblemDetailsOutputAt gives at the logger's nesting depth |
| FancyLogging.FancyLogger.DividerOutput | FancyLogger/FancyLogger.cs:441-455 | only runtime faults can escape |
| FancyLogging.FancyLogger.LogLongDividerLine | FancyLogger/FancyLogger.cs:441-447 | appends the divider at the long-divider width and pattern |
| FancyLogging.FancyLogger.LogShortDividerLine | FancyLogger/FancyLogger.cs:449-455 | appends the divider at the short-divider width and pattern |
| FancyLogging.FancyLogger.TitledOutput | FancyLogger/FancyLogger.cs:459-502 | a rejected title format throws FormatException before anything is written; only runtime faults escape |
| FancyLogging.FancyLogger.LogTitled | FancyLogger/FancyLogger.cs:459-466 | appends what TitledOutput gives and returns its exception |
| FancyLogging.FancyLogger.LogSection | FancyLogger/FancyLogger.cs:459-466 | the titled line at the section width and pattern |
| FancyLogging.FancyLogger.LogSubsection | FancyLogger/FancyLogger.cs:468-476 | the titled line at the subsection width and pattern |
| FancyLogging.FancyLogger.LogHeader | FancyLogger/FancyLogger.cs:480-490 | the titled line at the header width and pattern, with " - Start" appended to the format when asked |
| FancyLogging.FancyLogger.LogFooter | FancyLogger/FancyLogger.cs:492-502 | the titled line at the footer width and pattern, with " - End" appended to the format when asked |
| FancyLoggerProperties.NewLineNoBraces | FancyLogger/Constants/Characters.cs:12 | the newline holds no brace |
| FancyLoggerProperties.PaddedNoBraces | FancyLogger/Helpers/StringExtensions.cs:8-37 | padding brace-free text with a brace-free pattern gives brace-free text |
| FancyLoggerProperties.MessagePrefixes | FancyLogger/FancyLogger.cs:278-394 | for a brace-free text: the warning line is four spaces, the optional indent and the text; information has no spaces; debug and trace have six; each is ended by the newline when asked |
| FancyLoggerProperties.ScalarLine | FancyLogger/FancyLogger.cs:351-362 | the scalar line is six spaces, the optional indent, then label, tab, `=`, tab and value, at Trace level |
| FancyLoggerProperties.FormattedOnlyWithArguments | FancyLogger/FancyLogger.cs:290-292 | debug and trace leave a lone `{` alone when no arguments are given, while warning and information always format and throw |
| FancyLoggerProperties.ExceptionDispatch | FancyLogger/FancyLogger.cs:158-183 | each exception type gets exactly its own handler's output |
| FancyLoggerProperties.CommonExceptionLines | FancyLogger/FancyLogger.cs:203-214 | with brace-free labels and messages: one warning line with the outer label and message, and a second indented one with the inner label and message exactly when the inner message is not blank |
| FancyLoggerProperties.BraceInMessageEscapes | FancyLogger/FancyLogger.cs:206 | an exception whose message is `{` makes the exception logger itself throw FormatException |
| FancyLoggerProperties.ApiExceptionLines | FancyLogger/FancyLogger.cs:187-201 | the common lines, then the operation line (method, " - ", uri), then the content; blank content adds nothing |
| FancyLoggerProperties.OperationLine | FancyLogger/FancyLogger.cs:193-194 | the exact operation warning line |
| FancyLoggerProperties.ApiExceptionWithoutRequest | FancyLogger/FancyLogger.cs:189-194 | without a request, the common lines are written and then NullReferenceException escapes |
| FancyLoggerProperties.DebugFormatFaultLogged | FancyLogger/FancyLogger.cs:300-303 | a debug format rejected with arguments writes, instead of the line, the general exception warning for the FormatException |
| FancyLoggerProperties.JsonExceptionLines | FancyLogger/FancyLogger.cs:265-272 | with a brace-free message, inner message and path: the common lines under "JSON EXCEPTION", then the warning `LINE:  ` line number, indent, dash, indent, byte position, then the warning `PATH:  ` path, each after four spaces and the indent and ended; nothing escapes |
| FancyLoggerProperties.ProblemDetailsHeadLines | FancyLogger/FancyLogger.cs:408-412 | with a brace-free title and detail: exactly three unended warnings after four spaces and the indent, `PROBLEMDETAILS`, `Title: '…'` and `Detail: '…'`, a null member quoted as empty |
| FancyLoggerProperties.ProblemDetailsDebugLines | FancyLogger/FancyLogger.cs:414-420 | when the status has a title: exactly three unended Debug lines after six spaces and the indent, `Status Code: ` indent code ` - ` title, `Instance URL: ` indent and the quoted instance, `Type Info: ` indent and the quoted type; nothing escapes |
| FancyLoggerProperties.ProblemDetailsFault | FancyLogger/FancyLogger.cs:401-433 | a null status, a status missing from the table, or a warning broken by a brace ends the problem after what the warnings wrote, with one general-exception warning for ArgumentNullException, KeyNotFoundException or FormatException; the debug lines and the dictionaries are not written |
| FancyLoggerProperties.ProblemBodyThrows | FancyLogger/FancyLogger.cs:406-427 | in those cases the body of the `try` stops with that exception after the warnings' entries |
| FancyLoggerProperties.GeneralFaultLine | FancyLogger/FancyLogger.cs:203-219 | a runtime fault is logged as the one warning `EXCEPTION:  ` and its message, after four spaces and the indent, with two line ends |
| FancyLoggerProperties.ObjectLines | FancyLogger/FancyLogger.cs:336-343 | for an object that is not null: a problem from the serializer is logged as LogProblemDetails logs it and nothing else; a text that is not blank is one Trace line of six spaces, the optional indent, the label, a colon, a line end and the text; a blank text writes nothing |
| FancyLoggerProperties.StringObjectLine | FancyLogger/Serializer.cs:49-55 | a string logged as a string is written as it is under its label, or not at all when blank |
| FancyLoggerProperties.DividerLine | FancyLogger/FancyLogger.cs:441-455 | the divider is one information line: an indent, then the pattern repeated to exactly the width, or nothing for a width not above zero |
| FancyLoggerProperties.TitledLine | FancyLogger/FancyLogger.cs:459-466 | a title that formats and pads without braces is one information line: the trimmed title and a space, padded with the pattern |
| FancyLoggerProperties.TitleFormattedTwice | FancyLogger/FancyLogger.cs:461-465 | the padded title is formatted a second time, so `{{0}}` formats to `{0}` and the section line then throws |
| FancyLoggerProperties.PaddedPlaceholderThrows | FancyLogger/FancyLogger.cs:461-465 | a title that still holds `{0}` after padding is rejected by the second formatting |
| FancyLoggerProperties.SharedDefaultOptions | FancyLogger/FancyLogger.cs:70-81 | two loggers built on the shared defaults share one options object, so a prefix given to the first is seen by the second; a logger with its own options keeps "LOG" |
| FancyLoggerServices.FancyLoggerServiceStatics.constructor | FancyLogger/FancyLoggerService.cs:47-59 | the shared read and write JSON options with their declared defaults |
| FancyLoggerServices.FancyLoggerService.constructor | FancyLogger/FancyLoggerService.cs:67-86 | the configuration is what was passed; JSON options fall back on the shared ones; without a sink a new one is named by the prefix and told "Logger created" |
| FancyLoggerServices.FancyLoggerService.WarningOutput | FancyLogger/FancyLoggerService.cs:314-325 | one Warning line, or a FormatException exactly when the format is rejected |
| FancyLoggerServices.FancyLoggerService.LogWarning | FancyLogger/FancyLoggerService.cs:314-325 | appends what WarningOutput gives and returns its exception |
| FancyLoggerServices.FancyLoggerService.InfoOutput | FancyLogger/FancyLoggerService.cs:202-211 | one Information line, or a FormatException exactly when the format is rejected |
| FancyLoggerServices.FancyLoggerService.LogInfo | FancyLogger/FancyLoggerService.cs:202-211 | appends what InfoOutput gives and returns its exception |
| FancyLoggerServices.FancyLoggerService.ErrorOutput | FancyLogger/FancyLoggerService.cs:138-143 | the format with the newline appended, formatted, at Error level; a FormatException exactly when it is rejected |
| FancyLoggerServices.FancyLoggerService.LogError | FancyLogger/FancyLoggerService.cs:138-143 | appends what ErrorOutput gives and returns its exception |
| FancyLoggerServices.FancyLoggerService.TraceOutput | FancyLogger/FancyLoggerService.cs:294-312 | without arguments the text is written unformatted; it throws exactly when arguments are given and the format is rejected |
| FancyLoggerServices.FancyLoggerService.LogTrace | FancyLogger/FancyLoggerService.cs:294-312 | appends what TraceOutput gives and returns its exception |
| FancyLoggerServices.FancyLoggerService.ScalarOutput | FancyLogger/FancyLoggerService.cs:272-283 | exactly one Trace line and never an exception |
| FancyLoggerServices.FancyLoggerService.LogScalar | FancyLogger/FancyLoggerService.cs:272-283 | appends the scalar line |
| FancyLoggerServices.FancyLoggerService.Warnings | FancyLogger/FancyLoggerService.cs:384-391 | warnings in turn throw at most a FormatException, and none when no text holds a brace, in which case each text is written behind the warning prefix |
| FancyLoggerServices.FancyLoggerService.WarningEntries | FancyLogger/FancyLoggerService.cs:384-391 | one Warning line per text, five spaces and one indent in, ended by the newline |
| FancyLoggerServices.FancyLoggerService.LogWarnings | FancyLogger/FancyLoggerService.cs:384-391 | appends what Warnings gives, stopping at the first exception |
| FancyLoggerServices.FancyLoggerService.WarningsStep | FancyLogger/FancyLoggerService.cs:384-391 | the warnings from index i onward are warning i followed by the rest |
| FancyLoggerServices.FancyLoggerService.CommonExceptionOutput | FancyLogger/FancyLoggerService.cs:381-392 | only runtime faults can escape |
| FancyLoggerServices.FancyLoggerService.LogCommonException | FancyLogger/FancyLoggerService.cs:381-392 | appends what CommonExceptionOutput gives and returns its exception |
| FancyLoggerServices.FancyLoggerService.GeneralExceptionOutput | FancyLogger/FancyLoggerService.cs:394-397 | only runtime faults escape, and logging a runtime fault never throws |
| FancyLoggerServices.FancyLoggerService.LogGeneralException | FancyLogger/FancyLoggerService.cs:394-397 | appends what GeneralExceptionOutput gives |
| FancyLoggerServices.FancyLoggerService.HttpRequestExceptionOutput | FancyLogger/FancyLoggerService.cs:400-441 | only runtime faults can escape |
| FancyLoggerServices.FancyLoggerService.LogHttpRequestException | FancyLogger/FancyLoggerService.cs:400-441 | appends the common lines with the label HttpInnerLabelCases picks |
| FancyLoggerServices.FancyLoggerService.JsonExceptionOutput | FancyLogger/FancyLoggerService.cs:443-450 | only runtime faults can escape |
| FancyLoggerServices.FancyLoggerService.LogJsonException | FancyLogger/FancyLoggerService.cs:443-450 | appends the common lines, then the position and path lines, stopping at the first exception |
| FancyLoggerServices.FancyLoggerService.ApiExceptionOutput | FancyLogger/FancyLoggerService.cs:365-379 | only runtime faults can escape |
| FancyLoggerServices.FancyLoggerService.OperationOutput | FancyLogger/FancyLoggerService.cs:367-372 | a null request throws NullReferenceException before anything is written |
| FancyLoggerServices.FancyLoggerService.ContentOutput | FancyLogger/FancyLoggerService.cs:374-378 | never throws, and null or blank content writes nothing |
| FancyLoggerServices.FancyLoggerService.LogApiException | FancyLogger/FancyLoggerService.cs:365-379 | appends what ApiExceptionOutput gives and returns its exception |
| FancyLoggerServices.FancyLoggerService.ExceptionOutput | FancyLogger/FancyLoggerService.cs:146-171 | only runtime faults escape, and routing a runtime fault never throws |
| FancyLoggerServices.FancyLoggerService.LogException | FancyLogger/FancyLoggerService.cs:146-171 | appends what ExceptionOutput gives and returns its exception |
| FancyLoggerServices.FancyLoggerService.FaultRoutedToGeneral | FancyLogger/FancyLoggerService.cs:166-167 | a runtime fault goes to the general handler and its logging does not throw |
| FancyLoggerServices.FancyLoggerService.DebugOutput | FancyLogger/FancyLoggerService.cs:110-136 | never throws, because a failure is caught and logged; without arguments the text is written unformatted |
| FancyLoggerServices.FancyLoggerService.LogDebug | FancyLogger/FancyLoggerService.cs:110-136 | appends what DebugOutput gives |
| FancyLoggerServices.FancyLoggerService.ObjectOutputAt | FancyLogger/FancyLoggerService.cs:213-238 | never throws; an ignored or null object writes nothing |
| FancyLoggerServices.FancyLoggerService.LogObjectAt | FancyLogger/FancyLoggerService.cs:213-238 | appends what ObjectOutputAt gives |
| FancyLoggerServices.FancyLoggerService.LogObject | FancyLogger/FancyLoggerService.cs:213-238 | appends what ObjectOutputAt gives at the logger's nesting depth |
| FancyLoggerServices.FancyLoggerService.StatusLine | FancyLogger/FancyLoggerService.cs:254-255 | the status line exists exactly when the status is present and has a title; otherwise the failure is a runtime fault |
| FancyLoggerServices.FancyLoggerService.ProblemDetailsBody | FancyLogger/FancyLoggerService.cs:246-265 | only runtime faults can escape the body of the `try` |
| FancyLoggerServices.FancyLoggerService.ProblemDetailsHead | FancyLogger/FancyLoggerService.cs:248-252 | only runtime faults can escape the three warnings |
| FancyLoggerServices.FancyLoggerService.ProblemDetailsLines | FancyLogger/FancyLoggerService.cs:254-257 | only runtime faults can escape the three debug lines |
| FancyLoggerServices.FancyLoggerService.DictionariesOutput | FancyLogger/FancyLoggerService.cs:259-264 | writing the two dictionaries never throws; once the nesting depth is used up they write nothing |
| FancyLoggerServices.FancyLoggerService.DictionaryOutput | FancyLogger/FancyLoggerService.cs:259-264 | one dictionary never throws, and a null one writes nothing |
| FancyLoggerServices.FancyLoggerService.ProblemDetailsOutputAt | FancyLogger/FancyLoggerService.cs:241-270 | never throws, because the `catch` logs the failure; a null record writes nothing |
| FancyLoggerServices.FancyLoggerService.LogProblemDetailsAt | FancyLogger/FancyLoggerService.cs:241-270 | appends what ProblemDetailsOutputAt gives |
| FancyLoggerServices.FancyLoggerService.LogProblemDetailsBody | FancyLogger/FancyLoggerService.cs:246-265 | appends what ProblemDetailsBody gives and returns its exception |
| FancyLoggerServices.FancyLoggerService.LogProblemDetailsHead | FancyLogger/FancyLoggerService.cs:248-252 | appends what ProblemDetailsHead gives and returns its exception |
| FancyLoggerServices.FancyLoggerService.LogProblemDetailsLines | FancyLogger/FancyLoggerService.cs:254-257 | appends what ProblemDetailsLines gives and returns its exception |
| FancyLoggerServices.FancyLoggerService.LogDictionaries | FancyLogger/FancyLoggerService.cs:259-264 | appends what DictionariesOutput gives |
| FancyLoggerServices.FancyLoggerService.LogDictionary | FancyLogger/FancyLoggerService.cs:259-264 | appends what DictionaryOutput gives |
| FancyLoggerServices.FancyLoggerService.LogProblemDetails | FancyLogger/FancyLoggerService.cs:241-270 | appends what ProblemDetailsOutputAt gives at the logger's nesting depth |
| FancyLoggerServices.FancyLoggerService.PaddedOutput | FancyLogger/FancyLoggerService.cs:185-195 | a rejected format throws FormatException, and a negative width ArgumentOutOfRangeException, each before anything is written; only runtime faults escape |
| FancyLoggerServices.FancyLoggerService.LogPadded | FancyLogger/FancyLoggerService.cs:185-195 | appends what PaddedOutput gives and returns its exception |
| FancyLoggerServices.FancyLoggerService.LogFooter | FancyLogger/FancyLoggerService.cs:173-183 | the padded line at the header width and character, with " - End" appended to the format when asked |
| FancyLoggerServices.FancyLoggerService.LogHeader | FancyLogger/FancyLoggerService.cs:185-195 | the padded line at the header width and character, with " - Start" appended to the format when asked |
| FancyLoggerServices.FancyLoggerService.LogSubheader | FancyLogger/FancyLoggerService.cs:285-292 | the padded line at the subheader width and character |
| FancyLoggerServices.FancyLoggerService.HorizontalLineOutput | FancyLogger/FancyLoggerService.cs:197-200 | a negative header width throws ArgumentOutOfRangeException; only runtime faults escape |
| FancyLoggerServices.FancyLoggerService.LogHorizontalLine | FancyLogger/FancyLoggerService.cs:197-200 | appends what HorizontalLineOutput gives and returns its exception |
| FancyLoggerServices.FancyLoggerService.LogExceptionRouter | FancyLogger/FancyLoggerService.cs:331-336 | the deprecated router appends exactly what LogException would |
| FancyLoggerServices.FancyLoggerService.LogObjectAsJson | FancyLogger/FancyLoggerService.cs:338-344 | the deprecated call appends exactly what LogObject would, with no label |
| FancyLoggerServices.FancyLoggerService.LogValue | FancyLogger/FancyLoggerService.cs:346-352 | the deprecated call appends exactly the scalar line |
| FancyLoggerServiceProperties.NewLineNoBraces | FancyLogger/Constants/Characters.cs:12 | the newline holds no brace |
| FancyLoggerServiceProperties.MessagePrefixes | FancyLogger/FancyLoggerService.cs:110-325 | for a brace-free text: warning five spaces, information none, debug and trace six, each followed by one indent, the optional second indent and the text, ended by the newline when asked |
| FancyLoggerServiceProperties.ScalarLine | FancyLogger/FancyLoggerService.cs:272-283 | the scalar line is six spaces, the indents, then label, tab, `=`, tab and value, at Trace level |
| FancyLoggerServiceProperties.ExceptionDispatch | FancyLogger/FancyLoggerService.cs:146-171 | each exception type gets exactly its own handler's output |
| FancyLoggerServiceProperties.CommonExceptionLines | FancyLogger/FancyLoggerService.cs:381-392 | with brace-free labels and messages: the outer warning line, and a second indented one exactly when the inner message is not blank |
| FancyLoggerServiceProperties.InfoPlain | FancyLogger/FancyLoggerService.cs:202-211 | a brace-free text with the default flags is written one indent in and ended by the newline |
| FancyLoggerServiceProperties.OperationLine | FancyLogger/FancyLoggerService.cs:371-372 | the exact operation warning line |
| FancyLoggerServiceProperties.ApiExceptionLines | FancyLogger/FancyLoggerService.cs:365-379 | the common lines, then the operation line, then the content; blank content adds nothing |
| FancyLoggerServiceProperties.DebugFormatFaultLogged | FancyLogger/FancyLoggerService.cs:132-135 | a debug format rejected with arguments writes the general exception warning for the FormatException instead |
| FancyLoggerServiceProperties.JsonExceptionLines | FancyLogger/FancyLoggerService.cs:443-450 | with a brace-free message, inner message and path: the common lines under "JSON EXCEPTION", then the warning `LINE:  ` line number, indent, dash, indent, byte position, then the warning `PATH:  ` path, each after five spaces and the indent and ended; nothing escapes |
| FancyLoggerServiceProperties.ProblemDetailsHeadLines | FancyLogger/FancyLoggerService.cs:248-252 | with a brace-free title and detail: exactly three unended warnings after five spaces and the indent, `PROBLEMDETAILS`, `Title: '…'` and `Detail: '…'`, a null member quoted as empty |
| FancyLoggerServiceProperties.ProblemDetailsDebugLines | FancyLogger/FancyLoggerService.cs:254-257 | when the status has a title: exactly three unended Debug lines after six spaces and the indent, `Status Code: ` indent code ` - ` title, `Instance URL: ` indent and the quoted instance, `Type Info: ` indent and the quoted type; nothing escapes |
| FancyLoggerServiceProperties.ProblemDetailsFault | FancyLogger/FancyLoggerService.cs:241-270 | a null status, a status missing from the table, or a warning broken by a brace ends the problem after what the warnings wrote, with one general-exception warning for ArgumentNullException, KeyNotFoundException or FormatException; the debug lines and the dictionaries are not written |
| FancyLoggerServiceProperties.ProblemBodyThrows | FancyLogger/FancyLoggerService.cs:246-265 | in those cases the body of the `try` stops with that exception after the warnings' entries |
| FancyLoggerServiceProperties.GeneralFaultLine | FancyLogger/FancyLoggerService.cs:381-397 | a runtime fault is logged as the one warning `EXCEPTION:  ` and its message, after five spaces and the indent, with two line ends |
| FancyLoggerServiceProperties.ObjectLines | FancyLogger/FancyLoggerService.cs:225-232 | for an object that is not null: a problem from the serializer is logged as LogProblemDetails logs it and nothing else; a text that is not blank is one Trace line of six spaces, the indent, the label, a colon, a line end and the text; a blank text writes nothing |
| FancyLoggerServiceProperties.StringObjectLine | FancyLogger/Serializer.cs:49-55 | a string logged as a string is written as it is under its label, or not at all when blank |
| FancyLoggerServiceProperties.PaddedNoBraces | FancyLogger/FancyLoggerService.cs:190-192 | padding brace-free text with a non-brace character stays brace-free |
| FancyLoggerServiceProperties.SpacedNoBraces | FancyLogger/FancyLoggerService.cs:190 | the trimmed title and its trailing space stay brace-free |
| FancyLoggerServiceProperties.PaddedLine | FancyLogger/FancyLoggerService.cs:185-195 | a title that formats without braces is one information line: the trimmed title and a space, then the character up to the width |
| FancyLoggerServiceProperties.RepeatedTitle | FancyLogger/FancyLoggerService.cs:197-200 | a run of one non-blank, non-brace character formats and trims to itself, and padding it plus a space to its own length adds nothing |
| FancyLoggerServiceProperties.HorizontalLine | FancyLogger/FancyLoggerService.cs:197-200 | the horizontal line is the header character repeated to the header width, then a space |
| FancyLoggerServiceProperties.TitleFormattedTwice | FancyLogger/FancyLoggerService.cs:190-194 | `{{0}}` formats to `{0}`, which the second formatting rejects |
| FancyLoggerServiceProperties.DefaultService | FancyLogger/FancyLoggerService.cs:25-33 | a service built with the defaults has prefix "LOG", header 70 `#`, subheader 60 `=`, the shared JSON options, and a new sink holding only "Logger created" |
| AssemblyRecords.HexDigit | FancyLogger.Extensions/AssemblyLogger.cs:243 | a value below sixteen becomes one lowercase hexadecimal digit |
| AssemblyRecords.HexByte | FancyLogger.Extensions/AssemblyLogger.cs:243 | `{b:x2}`: exactly two lowercase hexadecimal digits |
| AssemblyRecords.Hex | FancyLogger.Extensions/AssemblyLogger.cs:242-243 | two lowercase hexadecimal digits per byte |
| AssemblyRecords.GetPublicKeyToken | FancyLogger.Extensions/AssemblyLogger.cs:235-246 | the loop builds the hexadecimal text of the bytes; a null or empty array gives the empty text |
| AssemblyRecords.DigitValue | FancyLogger.Extensions/AssemblyLogger.cs:243 | reading a hexadecimal digit back gives the value that renders as it |
| AssemblyRecords.DigitValueOf | FancyLogger.Extensions/AssemblyLogger.cs:243 | rendering a value and reading it back gives the value |
| AssemblyRecords.Unhex | FancyLogger.Extensions/AssemblyLogger.cs:242-243 | an even-length text of lowercase hexadecimal digits read back as bytes, one per pair |
| AssemblyRecords.UnhexHex | FancyLogger.Extensions/AssemblyLogger.cs:242-243 | reading back the token text gives the original bytes, so the token loses nothing |
| AssemblyRecords.HexUnhex | FancyLogger.Extensions/AssemblyLogger.cs:242-243 | every even-length lowercase hexadecimal text is the token of the bytes it reads back as |
| AssemblyRecords.TokenEmpty | FancyLogger.Extensions/AssemblyLogger.cs:239-240 | the token is empty exactly when the array is null or empty |
| AssemblyRecords.HexConcat | FancyLogger.Extensions/AssemblyLogger.cs:242-243 | the token of two arrays joined is the two tokens joined |
| AssemblyRecords.RuntimeTokenBytes | FancyLogger.Extensions/AssemblyLogger.cs:243 | the digit pairs of the eight bytes of the runtime's public key token |
| AssemblyRecords.RuntimeToken | FancyLogger.Extensions/AssemblyLogger.cs:235-246 | the runtime's public key token bytes render as "b77a5c561934e089" |
| AssemblyRecords.DomainCandidates | FancyLogger.Extensions/AssemblyLogger.cs:75-80 | keeps, with their multiplicity, exactly the assemblies whose full name starts with the package prefix and whose location is not the executing assembly's |
| AssemblyRecords.ReferenceCandidates | FancyLogger.Extensions/AssemblyLogger.cs:87-91 | keeps, with their multiplicity, exactly the present referenced names whose full name starts with the package prefix |
| AssemblyRecords.OrdinalTotal | FancyLogger.Extensions/AssemblyLogger.cs:81 | any two full names are ordered one way or the other |
| AssemblyRecords.OrdinalTransitive | FancyLogger.Extensions/AssemblyLogger.cs:81 | the order of full names is transitive |
| AssemblyRecords.OrdinalReflexive | FancyLogger.Extensions/AssemblyLogger.cs:81 | every full name is ordered before or equal to itself |
| AssemblyRecords.OrdinalAfter | FancyLogger.Extensions/AssemblyLogger.cs:81 | a name not ordered strictly before another is ordered after it |
| AssemblyRecords.Insert | FancyLogger.Extensions/AssemblyLogger.cs:81 | inserting into a sorted list keeps it sorted and adds exactly the one element |
| AssemblyRecords.InsertedFirst | FancyLogger.Extensions/AssemblyLogger.cs:81 | an element ordered before the head of a sorted list may go first |
| AssemblyRecords.InsertedAfter | FancyLogger.Extensions/AssemblyLogger.cs:81 | the head of a sorted list stays first when the new element is not strictly before it |
| AssemblyRecords.SortBy | FancyLogger.Extensions/AssemblyLogger.cs:81 | `OrderBy`: the result is sorted by the key and is a permutation of the input |
| AssemblyRecords.InsertStable | FancyLogger.Extensions/AssemblyLogger.cs:81 | inserting puts the element after every element with the same key and keeps each key's elements in their order |
| AssemblyRecords.SortByStable | FancyLogger.Extensions/AssemblyLogger.cs:81 | `OrderBy` is stable: for every key, the elements with that key come out in the order they went in |
| AssemblyRecords.DomainAssemblies | FancyLogger.Extensions/AssemblyLogger.cs:75-81 | the domain assemblies reported are sorted by full name, and each appears as often as in the domain when it passes the filter and never otherwise |
| AssemblyRecords.ReferenceNames | FancyLogger.Extensions/AssemblyLogger.cs:87-92 | the references reported are sorted by full name, and each appears as often as among the references when it passes the filter and never otherwise |
| AssemblyLogging.AssemblyLogger.constructor | FancyLogger.Extensions/AssemblyLogger.cs:42-47 | the logger keeps the fancy logger, the executing assembly's location and its ancestor path |
| AssemblyLogging.AssemblyLogger.NameOutput | FancyLogger.Extensions/AssemblyLogger.cs:160-166 | only runtime faults can escape the name line |
| AssemblyLogging.AssemblyLogger.LogName | FancyLogger.Extensions/AssemblyLogger.cs:160-166 | appends what NameOutput gives and returns its exception |
| AssemblyLogging.AssemblyLogger.VersionOutput | FancyLogger.Extensions/AssemblyLogger.cs:168-176 | never throws, and writes nothing exactly when the version is null |
| AssemblyLogging.AssemblyLogger.LogVersion | FancyLogger.Extensions/AssemblyLogger.cs:168-176 | appends what VersionOutput gives |
| AssemblyLogging.AssemblyLogger.FrameworkOutput | FancyLogger.Extensions/AssemblyLogger.cs:178-190 | never throws, and writes nothing exactly when the framework name is null or empty |
| AssemblyLogging.AssemblyLogger.LogTargetFramework | FancyLogger.Extensions/AssemblyLogger.cs:178-190 | appends what FrameworkOutput gives |
| AssemblyLogging.AssemblyLogger.CultureOutput | FancyLogger.Extensions/AssemblyLogger.cs:192-205 | never throws; writes nothing exactly when cultures are hidden or the culture is null; the invariant culture is written as "neutral" |
| AssemblyLogging.AssemblyLogger.LogCultureInfo | FancyLogger.Extensions/AssemblyLogger.cs:192-205 | appends what CultureOutput gives under the current ShowCultureInfo |
| AssemblyLogging.AssemblyLogger.RelativeDirectory | FancyLogger.Extensions/AssemblyLogger.cs:221-222 | cutting the ancestor path off the location fails, with ArgumentOutOfRangeException, exactly when the location is shorter |
| AssemblyLogging.AssemblyLogger.TokenOrLocationOutput | FancyLogger.Extensions/AssemblyLogger.cs:207-233 | only runtime faults can escape |
| AssemblyLogging.AssemblyLogger.LogPublicKeyTokenOrLocation | FancyLogger.Extensions/AssemblyLogger.cs:207-233 | appends what TokenOrLocationOutput gives and returns its exception |
| AssemblyLogging.AssemblyLogger.AssemblyDetailsOutput | FancyLogger.Extensions/AssemblyLogger.cs:151-155 | the version, framework and culture lines never throw |
| AssemblyLogging.AssemblyLogger.LogAssemblyDetails | FancyLogger.Extensions/AssemblyLogger.cs:151-155 | appends what AssemblyDetailsOutput gives |
| AssemblyLogging.AssemblyLogger.AssemblyBodyOutput | FancyLogger.Extensions/AssemblyLogger.cs:151-157 | only runtime faults can escape |
| AssemblyLogging.AssemblyLogger.LogAssemblyBody | FancyLogger.Extensions/AssemblyLogger.cs:151-157 | appends what AssemblyBodyOutput gives and returns its exception |
| AssemblyLogging.AssemblyLogger.AssemblyOutput | FancyLogger.Extensions/AssemblyLogger.cs:141-158 | a null assembly writes nothing; only runtime faults escape |
| AssemblyLogging.AssemblyLogger.LogAssembly | FancyLogger.Extensions/AssemblyLogger.cs:141-158 | appends what AssemblyOutput gives and returns its exception |
| AssemblyLogging.AssemblyLogger.NameDetailsOutput | FancyLogger.Extensions/AssemblyLogger.cs:263-267 | the version and culture lines of a referenced name never throw |
| AssemblyLogging.AssemblyLogger.LogNameDetails | FancyLogger.Extensions/AssemblyLogger.cs:263-267 | appends what NameDetailsOutput gives |
| AssemblyLogging.AssemblyLogger.NameBodyOutput | FancyLogger.Extensions/AssemblyLogger.cs:263-270 | only runtime faults can escape |
| AssemblyLogging.AssemblyLogger.LogNameBody | FancyLogger.Extensions/AssemblyLogger.cs:263-270 | appends what NameBodyOutput gives and returns its exception |
| AssemblyLogging.AssemblyLogger.AssemblyNameOutput | FancyLogger.Extensions/AssemblyLogger.cs:255-271 | a null name writes nothing; only runtime faults escape |
| AssemblyLogging.AssemblyLogger.LogAssemblyName | FancyLogger.Extensions/AssemblyLogger.cs:255-271 | appends what AssemblyNameOutput gives and returns its exception |
| AssemblyLogging.AssemblyLogger.LogExecutingAssembly | FancyLogger.Extensions/AssemblyLogger.cs:127-132 | the assembly written under "Executing Assembly" |
| AssemblyLogging.AssemblyLogger.LogDomainAssembly | FancyLogger.Extensions/AssemblyLogger.cs:134-139 | the assembly written under "Domain Assembly" |
| AssemblyLogging.AssemblyLogger.LogReferenceAssembly | FancyLogger.Extensions/AssemblyLogger.cs:248-253 | the name written under "Reference Assembly" |
| AssemblyLogging.AssemblyLogger.ReferenceCalls | FancyLogger.Extensions/AssemblyLogger.cs:95-98 | one reference call per name |
| AssemblyLogging.AssemblyLogger.ReferencesOutput | FancyLogger.Extensions/AssemblyLogger.cs:95-98 | only runtime faults can escape the references |
| AssemblyLogging.AssemblyLogger.DomainOutput | FancyLogger.Extensions/AssemblyLogger.cs:85-98 | only runtime faults can escape one domain assembly and its references |
| AssemblyLogging.AssemblyLogger.DomainCalls | FancyLogger.Extensions/AssemblyLogger.cs:83-99 | one call per domain assembly |
| AssemblyLogging.AssemblyLogger.DomainsOutput | FancyLogger.Extensions/AssemblyLogger.cs:83-99 | only runtime faults can escape the domain assemblies |
| AssemblyLogging.AssemblyLogger.AssembliesOutput | FancyLogger.Extensions/AssemblyLogger.cs:60-100 | only runtime faults can escape the whole report |
| AssemblyLogging.AssemblyLogger.LogReferences | FancyLogger.Extensions/AssemblyLogger.cs:95-98 | the loop appends what ReferencesOutput gives, stopping at the first exception |
| AssemblyLogging.AssemblyLogger.LogDomain | FancyLogger.Extensions/AssemblyLogger.cs:85-98 | appends what DomainOutput gives and returns its exception |
| AssemblyLogging.AssemblyLogger.LogDomains | FancyLogger.Extensions/AssemblyLogger.cs:83-99 | the loop appends what DomainsOutput gives, stopping at the first exception |
| AssemblyLogging.AssemblyLogger.LogAssemblies | FancyLogger.Extensions/AssemblyLogger.cs:60-100 | records ShowCultureInfo, then appends the section line, the executing assembly and the sorted, filtered domain assemblies with their references, stopping at the first exception |
| AssemblyServiceLogging.AssemblyLoggerService.constructor | FancyLogger.Extensions/AssemblyLoggerService.cs:40-45 | the logger keeps the logger service, the executing assembly's location and its ancestor path |
| AssemblyServiceLogging.AssemblyLoggerService.NameOutput | FancyLogger.Extensions/AssemblyLoggerService.cs:158-164 | only runtime faults can escape the name line |
| AssemblyServiceLogging.AssemblyLoggerService.LogName | FancyLogger.Extensions/AssemblyLoggerService.cs:158-164 | appends what NameOutput gives and returns its exception |
| AssemblyServiceLogging.AssemblyLoggerService.VersionOutput | FancyLogger.Extensions/AssemblyLoggerService.cs:166-174 | never throws, and writes nothing exactly when the version is null |
| AssemblyServiceLogging.AssemblyLoggerService.LogVersion | FancyLogger.Extensions/AssemblyLoggerService.cs:166-174 | appends what VersionOutput gives |
| AssemblyServiceLogging.AssemblyLoggerService.FrameworkOutput | FancyLogger.Extensions/AssemblyLoggerService.cs:176-188 | never throws, and writes nothing exactly when the framework name is null or empty |
| AssemblyServiceLogging.AssemblyLoggerService.LogTargetFramework | FancyLogger.Extensions/AssemblyLoggerService.cs:176-188 | appends what FrameworkOutput gives |
| AssemblyServiceLogging.AssemblyLoggerService.CultureOutput | FancyLogger.Extensions/AssemblyLoggerService.cs:190-203 | never throws; writes nothing exactly when cultures are hidden or the culture is null; the invariant culture is written as "neutral" |
| AssemblyServiceLogging.AssemblyLoggerService.LogCultureInfo | FancyLogger.Extensions/AssemblyLoggerService.cs:190-203 | appends what CultureOutput gives under the current ShowCultureInfo |
| AssemblyServiceLogging.AssemblyLoggerService.RelativeDirectory | FancyLogger.Extensions/AssemblyLoggerService.cs:219-220 | cutting the ancestor path off the location fails, with ArgumentOutOfRangeException, exactly when the location is shorter |
| AssemblyServiceLogging.AssemblyLoggerService.TokenOrLocationOutput | FancyLogger.Extensions/AssemblyLoggerService.cs:205-231 | only runtime faults can escape |
| AssemblyServiceLogging.AssemblyLoggerService.LogPublicKeyTokenOrLocation | FancyLogger.Extensions/AssemblyLoggerService.cs:205-231 | appends what TokenOrLocationOutput gives and returns its exception |
| AssemblyServiceLogging.AssemblyLoggerService.AssemblyDetailsOutput | FancyLogger.Extensions/AssemblyLoggerService.cs:149-153 | the version, framework and culture lines never throw |
| AssemblyServiceLogging.AssemblyLoggerService.LogAssemblyDetails | FancyLogger.Extensions/AssemblyLoggerService.cs:149-153 | appends what AssemblyDetailsOutput gives |
| AssemblyServiceLogging.AssemblyLoggerService.AssemblyBodyOutput | FancyLogger.Extensions/AssemblyLoggerService.cs:149-155 | only runtime faults can escape |
| AssemblyServiceLogging.AssemblyLoggerService.LogAssemblyBody | FancyLogger.Extensions/AssemblyLoggerService.cs:149-155 | appends what AssemblyBodyOutput gives and returns its exception |
| AssemblyServiceLogging.AssemblyLoggerService.AssemblyOutput | FancyLogger.Extensions/AssemblyLoggerService.cs:139-156 | a null assembly writes nothing; only runtime faults escape |
| AssemblyServiceLogging.AssemblyLoggerService.LogAssembly | FancyLogger.Extensions/AssemblyLoggerService.cs:139-156 | appends what AssemblyOutput gives and returns its exception |
| AssemblyServiceLogging.AssemblyLoggerService.NameDetailsOutput | FancyLogger.Extensions/AssemblyLoggerService.cs:261-265 | the version and culture lines of a referenced name never throw |
| AssemblyServiceLogging.AssemblyLoggerService.LogNameDetails | FancyLogger.Extensions/AssemblyLoggerService.cs:261-265 | appends what NameDetailsOutput gives |
| AssemblyServiceLogging.AssemblyLoggerService.NameBodyOutput | FancyLogger.Extensions/AssemblyLoggerService.cs:261-268 | only runtime faults can escape |
| AssemblyServiceLogging.AssemblyLoggerService.LogNameBody | FancyLogger.Extensions/AssemblyLoggerService.cs:261-268 | appends what NameBodyOutput gives and returns its exception |
| AssemblyServiceLogging.AssemblyLoggerService.AssemblyNameOutput | FancyLogger.Extensions/AssemblyLoggerService.cs:253-269 | a null name writes nothing; only runtime faults escape |
| AssemblyServiceLogging.AssemblyLoggerService.LogAssemblyName | FancyLogger.Extensions/AssemblyLoggerService.cs:253-269 | appends what AssemblyNameOutput gives and returns its exception |
| AssemblyServiceLogging.AssemblyLoggerService.LogExecutingAssembly | FancyLogger.Extensions/AssemblyLoggerService.cs:125-130 | the assembly written under "Executing Assembly" |
| AssemblyServiceLogging.AssemblyLoggerService.LogDomainAssembly | FancyLogger.Extensions/AssemblyLoggerService.cs:132-137 | the assembly written under "Domain Assembly" |
| AssemblyServiceLogging.AssemblyLoggerService.LogReferenceAssembly | FancyLogger.Extensions/AssemblyLoggerService.cs:246-251 | the name written under "Reference Assembly" |
| AssemblyServiceLogging.AssemblyLoggerService.ReferenceCalls | FancyLogger.Extensions/AssemblyLoggerService.cs:93-96 | one reference call per name |
| AssemblyServiceLogging.AssemblyLoggerService.ReferencesOutput | FancyLogger.Extensions/AssemblyLoggerService.cs:93-96 | only runtime faults can escape the references |
| AssemblyServiceLogging.AssemblyLoggerService.DomainOutput | FancyLogger.Extensions/AssemblyLoggerService.cs:83-96 | only runtime faults can escape one domain assembly and its references |
| AssemblyServiceLogging.AssemblyLoggerService.DomainCalls | FancyLogger.Extensions/AssemblyLoggerService.cs:81-97 | one call per domain assembly |
| AssemblyServiceLogging.AssemblyLoggerService.DomainsOutput | FancyLogger.Extensions/AssemblyLoggerService.cs:81-97 | only runtime faults can escape the domain assemblies |
| AssemblyServiceLogging.AssemblyLoggerService.AssembliesOutput | FancyLogger.Extensions/AssemblyLoggerService.cs:58-98 | only runtime faults can escape the whole report |
| AssemblyServiceLogging.AssemblyLoggerService.LogReferences | FancyLogger.Extensions/AssemblyLoggerService.cs:93-96 | the loop appends what ReferencesOutput gives, stopping at the first exception |
| AssemblyServiceLogging.AssemblyLoggerService.LogDomain | FancyLogger.Extensions/AssemblyLoggerService.cs:83-96 | appends what DomainOutput gives and returns its exception |
| AssemblyServiceLogging.AssemblyLoggerService.LogDomains | FancyLogger.Extensions/AssemblyLoggerService.cs:81-97 | the loop appends what DomainsOutput gives, stopping at the first exception |
| AssemblyServiceLogging.AssemblyLoggerService.LogAssemblies | FancyLogger.Extensions/AssemblyLoggerService.cs:58-98 | records ShowCultureInfo, then appends the header line, the executing assembly and the sorted, filtered domain assemblies with their references, stopping at the first exception |
| AssemblyLoggerProperties.WarningFormats | FancyLogger.Extensions/AssemblyLogger.cs:230-231 | the warning text formats to itself |
| AssemblyLoggerProperties.ServiceTokenOrLocationLine | FancyLogger.Extensions/AssemblyLoggerService.cs:205-231 | the same for `AssemblyLoggerService`: exactly one line; it is the warning exactly when there is neither token nor location, and the token line at Trace when there is a token; the call throws, with ArgumentOutOfRangeException, exactly when there is no token and the location is non-empty but shorter than the ancestor path |
| AssemblyLoggerProperties.TokenOrLocationLine | FancyLogger.Extensions/AssemblyLogger.cs:207-233 | exactly one line; it is the warning exactly when there is neither token nor location, and the token line at Trace when there is a token; the call throws, with ArgumentOutOfRangeException, exactly when there is no token and the location is non-empty but shorter than the ancestor path |
| AssemblyLoggerProperties.ReferenceTokenOrWarning | FancyLogger.Extensions/AssemblyLogger.cs:269-270 | a referenced name, having no location, gets the token line or the warning, and never throws |
| AssemblyLoggerProperties.AssemblyLines | FancyLogger.Extensions/AssemblyLogger.cs:141-158 | an assembly takes two lines, plus one each for a version, a framework name and a shown culture; it throws exactly on a rejected name line (FormatException) or a location shorter than the ancestor path (ArgumentOutOfRangeException) |
| AssemblyLoggerProperties.ReferenceLines | FancyLogger.Extensions/AssemblyLogger.cs:255-271 | a referenced name takes two lines, plus one each for a version and a shown culture, and throws only FormatException, exactly on a rejected name line |
| AssemblyLoggerProperties.ReferencesThrowFormatOnly | FancyLogger.Extensions/AssemblyLogger.cs:95-98 | the references of a domain assembly can stop the report only with FormatException |
| AssemblyLoggerProperties.InTurnThrowsOneOf | FancyLogger.Extensions/AssemblyLogger.cs:95-98 | calls in turn that can each throw only one exception can throw only that one |
| AssemblyLoggerProperties.CultureShownOnlyWhenAsked | FancyLogger.Extensions/AssemblyLogger.cs:192-205 | with cultures hidden nothing is written; shown, a present culture takes one line and the invariant culture reads "neutral" |

## Left out

- Log delivery: the `ILoggerFactory`, the debug and console providers, and their formatting are not modelled. A sink only records what it is given.
- `LoggerCreator` is modelled only through what the constructors ensure about a new sink: its name and its "Logger created" line.
- `IFancyLogger`, `IFancyLoggerService`, `IAssemblyLogger` and the console, smoke-test and exploratory programs are not modelled.
- System.Text.Json parse, cast and serialize, Refit's `ExtractRefitProblemDetails` and the `HttpStatusDetails` title lookup are uninterpreted function parameters.
- Parse, cast and serialize may return anything or fail with any exception. Two calls are narrower than in .NET. `ExtractRefitProblemDetails` always returns a record and never throws. The title lookup fails only by a missing key, which raises KeyNotFoundException. The model therefore never reaches the `catch` of `LogObject<T>` (FancyLogger/FancyLogger.cs:345-348, FancyLogger/FancyLoggerService.cs:234-237): inside the `try`, `ToJson<T>` catches every failure, `LogProblemDetails` catches its own, and a Trace line without arguments cannot throw. `ToJson<T>` returning exactly one of its two parts also rests on the first of these.
- `string.Format` handles only `{{`, `}}` and `{n}`. Alignment and format specifiers such as `{0,5}` or `{0:x}` are treated as rejected.
- The `{b:x2}` of the token loop is modelled directly as two lowercase hexadecimal digits.
- `Text.Trim` uses a fixed set of white-space characters. It covers the ASCII ones, U+0085 and U+00A0, not every Unicode space separator.
- `Environment.NewLine` is a parameter, either `"\n"` or `"\r\n"`.
- FancyLogging.FancyLogger.ObjectOutputAt: a problem met while logging the dictionaries of a problem is followed only to a depth of three (`NestingFuel`). Below that depth the model writes nothing, where the source recurses until the stack overflows.
- FancyLoggerServices.FancyLoggerService.ObjectOutputAt: the same depth bound.
- FancyLogging.FancyLogger.ObjectOutputAt: its contract says only that nothing escapes and that an ignored or null object writes nothing. What is written otherwise is stated by FancyLoggerProperties.ObjectLines, and for the service by FancyLoggerServiceProperties.ObjectLines.
- AssemblyRecords.SortBy: `OrderBy` compares with the current culture's comparer. The model compares full names ordinally. Like `OrderBy`, it keeps elements with equal keys in input order (AssemblyRecords.SortByStable).
- AssemblyRecords.KeptDomainAssembly: `StartsWith(string)` is culture-sensitive. The model compares ordinally.
- Reflection is replaced by `Assembly` and `AssemblyName` records passed in: `GetExecutingAssembly`, `GetAssemblies`, `GetReferencedAssemblies`, `GetName`, `GetCustomAttribute<TargetFrameworkAttribute>` and `Version.ToString()`.
- `GetAncestorPath` and the file system are left out. The ancestor path is a constructor parameter, and `Path.GetDirectoryName` is a function parameter.
- AssemblyLogging.AssemblyLogger.TokenOrLocationOutput: its contract only bounds the exceptions. The line written and the throw condition are stated by AssemblyLoggerProperties.TokenOrLocationLine.
- AssemblyServiceLogging.AssemblyLoggerService.TokenOrLocationOutput: its contract only bounds the exceptions. The line written and the throw condition are stated by AssemblyLoggerProperties.ServiceTokenOrLocationLine. The lemmas that count an assembly's lines are stated only for `AssemblyLogger`.
- FancyLogging.FancyLogger.CommonExceptionOutput: its contract only bounds the exceptions. The lines are stated by FancyLoggerProperties.CommonExceptionLines, for brace-free labels and messages.
- FancyLogging.FancyLogger.HttpRequestExceptionOutput: its contract only bounds the exceptions. The label is stated by Exceptions.HttpInnerLabelCases, and the lines by FancyLoggerProperties.CommonExceptionLines.
- FancyLogging.FancyLogger.JsonExceptionOutput: its contract only bounds the exceptions. The lines are stated by FancyLoggerProperties.JsonExceptionLines, for a brace-free message, inner message and path. A path holding a brace is covered only by the bound.
- FancyLoggerServices.FancyLoggerService.JsonExceptionOutput: the same, with FancyLoggerServiceProperties.JsonExceptionLines.
- FancyLogging.FancyLogger.ProblemDetailsHead: its contract only bounds the exceptions. The lines are stated by FancyLoggerProperties.ProblemDetailsHeadLines, for a brace-free title and detail.
- FancyLogging.FancyLogger.ProblemDetailsLines: its contract only bounds the exceptions. The lines are stated by FancyLoggerProperties.ProblemDetailsDebugLines, and the stop on a null or unknown status by FancyLoggerProperties.ProblemDetailsFault.
- FancyLogging.FancyLogger.ProblemDetailsBody: its contract only bounds the exceptions. The lines are stated piecewise by the three lemmas above and by FancyLoggerProperties.ObjectLines for the dictionaries. No single lemma states the whole body for a problem whose status has a title.
- FancyLoggerServices.FancyLoggerService.ProblemDetailsHead: the same, with FancyLoggerServiceProperties.ProblemDetailsHeadLines.
- FancyLoggerServices.FancyLoggerService.ProblemDetailsLines: the same, with FancyLoggerServiceProperties.ProblemDetailsDebugLines and FancyLoggerServiceProperties.ProblemDetailsFault.
- FancyLoggerServices.FancyLoggerService.ProblemDetailsBody: the same as for `FancyLogger`, with the lemmas of FancyLoggerServiceProperties.
- The deprecated default interface members and a null `loggerPrefix` are not modelled. A null logger prefix would make the new sink's name null.
- Concurrency is not modelled. Two loggers sharing one sink or one options object are modelled, but only one call runs at a time.

## Findings

| source | as written | input that shows it | evidently intended | confidence | as-written member | corrected member |
|---|---|---|---|---|---|---|
| FancyLogger/Helpers/Serializer.cs:25-31 | the constructor sets `DefaultIgnoreCondition` twice on the one `writeJsonOptions` object and stores that object as both the "with nulls" and the "without nulls" options, so both ignore nulls and `keepNulls` has no effect | any object with a null property, serialized with `keepNulls = true`: the null property is dropped | "with nulls" is a separate copy whose condition stays `Never`, so `keepNulls = true` writes null properties | not executed | HelpersSerializer.Serializer.KeepNullsHasNoEffect | HelpersSerializer.CopyingSerializer.KeepNullsSelectsCondition |
