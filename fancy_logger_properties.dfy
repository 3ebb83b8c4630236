/** What the lines of `FancyLogger` look like: the message prefixes, the
    exception lines, the divider and titled lines, and the options object
    the loggers share. */
module FancyLoggerProperties {
  import opened Wrappers
  import Text
  import opened Characters
  import opened Exceptions
  import opened Sinks
  import opened Json
  import StringExtensions
  import opened LoggerOptions
  import opened FancyLogging

  // ------------------------------------------------------------ helpers

  lemma NewLineNoBraces(n: NewLine)
    ensures Text.NoBraces(n)
  {
  }

  /** Every character of a padded text comes from the text or from the
      pattern, so padding brings in no brace. */
  lemma PaddedNoBraces(t: string, totalWidth: int, pattern: string)
    requires Text.NoBraces(t) && Text.NoBraces(pattern)
    ensures Text.NoBraces(StringExtensions.PadRight(Some(t), totalWidth, Some(pattern)))
  {
    var r := StringExtensions.PadRight(Some(t), totalWidth, Some(pattern));
    forall i | 0 <= i < |r|
      ensures r[i] != '{' && r[i] != '}'
    {
      if i < |t| {
        assert r[i] == r[..|t|][i];
      } else {
        var k := (i - |t|) % |pattern|;
        assert r[i] == pattern[k];
      }
    }
  }

  // ----------------------------------------------------------- prefixes

  /** For a text without braces, whatever the arguments: a warning starts
      with four spaces, an information line with nothing, debug and trace
      lines with six spaces, each followed by the optional indent. */
  lemma MessagePrefixes(l: FancyLogger, format: string, addIndent: bool, newLineAfter: bool, args: seq<string>)
    requires Text.NoBraces(format)
    ensures l.WarningOutput(format, addIndent, newLineAfter, args)
            == Emit(Warning, l.Ended("    " + AddIndent(addIndent) + format, newLineAfter))
    ensures l.InfoOutput(format, addIndent, newLineAfter, args)
            == Emit(Information, l.Ended(AddIndent(addIndent) + format, newLineAfter))
    ensures l.DebugOutput(format, addIndent, newLineAfter, args)
            == Emit(Debug, l.Ended("      " + AddIndent(addIndent) + format, newLineAfter))
    ensures l.TraceOutput(format, addIndent, newLineAfter, args)
            == Emit(Trace, l.Ended("      " + AddIndent(addIndent) + format, newLineAfter))
  {
    Text.FormatWithoutBraces(format, args);
    assert Text.Chars(' ', 4) == "    ";
    assert Text.Chars(' ', 6) == "      ";
  }

  /** A scalar is six spaces, the optional indent, then the label and the
      value on either side of a tab-framed `=`, at Trace level. */
  lemma ScalarLine(l: FancyLogger, labelText: string, value: string, addIndent: bool, newLineAfter: bool)
    ensures l.ScalarOutput(labelText, value, addIndent, newLineAfter)
            == Emit(Trace, l.Ended("      " + AddIndent(addIndent) + labelText + "\t=\t" + value, newLineAfter))
  {
    assert Text.Chars(' ', 6) == "      ";
    var front := "      " + AddIndent(addIndent) + labelText;
    assert front + Indent + "=" + Indent + value == front + "\t=\t" + value;
  }

  /** Debug and trace lines are formatted only when there are arguments:
      a lone brace passes through them, while warning and information
      lines, which always format, throw on it before writing. */
  lemma FormattedOnlyWithArguments(l: FancyLogger)
    ensures l.DebugOutput("{", false, false, []) == Emit(Debug, "      {")
    ensures l.TraceOutput("{", false, false, []) == Emit(Trace, "      {")
    ensures l.WarningOutput("{", true, true, []) == Throw(FormatException)
    ensures l.InfoOutput("{", true, true, []) == Throw(FormatException)
  {
    assert Text.Chars(' ', 6) == "      ";
    assert Text.Chars(' ', 6) + AddIndent(false) + "{" == "      {";
    assert Text.Format("{", []).None? by {
      Text.LoneOpeningBraceThrows([]);
    }
  }

  // --------------------------------------------------------- exceptions

  /** `LogException` hands each exception to the handler of its type:
      API exceptions (validation ones included), HTTP request exceptions,
      JSON exceptions, then everything else. */
  lemma ExceptionDispatch(l: FancyLogger, js: RootSerializer.SerializerSettings, e: Exception)
    ensures e.Api? ==> l.ExceptionOutput(js, e) == l.ApiExceptionOutput(js, e)
    ensures e.HttpRequest? ==> l.ExceptionOutput(js, e) == l.HttpRequestExceptionOutput(e)
    ensures e.Json? ==> l.ExceptionOutput(js, e) == l.JsonExceptionOutput(e)
    ensures !(e.Api? || e.HttpRequest? || e.Json?) ==> l.ExceptionOutput(js, e) == l.GeneralExceptionOutput(e)
  {
    RouteByType(e);
  }

  /** With texts free of braces, `LogCommonException` writes one warning
      with the outer label and the message, and a second, indented one
      with the inner label and the inner message exactly when that message
      is neither null nor white space. Each format already ends with a
      line end and `LogWarning` adds another. */
  lemma CommonExceptionLines(l: FancyLogger, e: Exception, outerLabel: string, innerLabel: string)
    requires Text.NoBraces(outerLabel) && Text.NoBraces(e.message)
    requires e.inner.Some? ==> Text.NoBraces(innerLabel) && Text.NoBraces(e.inner.value.message)
    ensures var r := l.CommonExceptionOutput(e, outerLabel, innerLabel);
            r.thrown.None?
            && |r.entries| == (if Text.IsNullOrWhiteSpace(InnerMessage(e)) then 1 else 2)
            && r.entries[0] == Entry(Warning, "    " + Indent + outerLabel + ":  " + e.message + l.newLine + l.newLine)
            && (|r.entries| == 2 ==>
                  r.entries[1] == Entry(Warning, "    " + Indent + Indent + innerLabel + ":  "
                                                 + e.inner.value.message + l.newLine + l.newLine))
  {
    NewLineNoBraces(l.newLine);
    var w := CommonWarnings(e, outerLabel, innerLabel, l.newLine);
    CommonWarningsPlain(e, outerLabel, innerLabel, "    " + Indent, l.newLine);
    assert l.CommonExceptionOutput(e, outerLabel, innerLabel) == l.Warnings(w);
    assert Text.Chars(' ', 4) == "    ";
  }

  /** A message whose only brace is a lone opening one at its start makes
      the outer warning throw: nothing is written and the exception
      escapes the handler. */
  lemma BraceInMessageEscapes(l: FancyLogger, e: Exception, outerLabel: string, innerLabel: string)
    requires Text.NoBraces(outerLabel) && e.message == "{"
    ensures l.CommonExceptionOutput(e, outerLabel, innerLabel) == Throw(FormatException)
  {
    var a := outerLabel + ":  ";
    var b := "{" + l.newLine;
    Text.FormatPlainPrefix(a, b, []);
    assert Text.Format(b, []).None? by {
      if l.newLine == "\n" {
        assert b == "{\n";
      } else {
        assert b == "{\r\n";
      }
    }
    assert outerLabel + ":  " + e.message + l.newLine == a + b;
  }

  /** An API exception with a request: the common lines, the operation
      line, then whatever logging the content as a `ProblemDetails`
      writes (nothing for content that is null or white space). */
  lemma ApiExceptionLines(l: FancyLogger, js: RootSerializer.SerializerSettings, e: Exception)
    requires e.Api? && e.requestMethod.Some?
    requires Text.NoBraces(e.message) && (e.inner.Some? ==> Text.NoBraces(e.inner.value.message))
    requires Text.NoBraces(e.requestMethod.value) && Text.NoBraces(e.uri)
    ensures var r := l.ApiExceptionOutput(js, e);
            r.thrown.None?
            && r.entries == l.CommonExceptionOutput(e, "API EXCEPTION", "INNER EXCEPTION").entries
                            + [Entry(Warning, "    " + Indent + "OPERATION:  " + e.requestMethod.value + " - " + e.uri
                                              + l.newLine + l.newLine)]
                            + l.ContentOutput(js, e).entries
    ensures Text.IsNullOrWhiteSpace(e.content) ==> l.ContentOutput(js, e).entries == []
  {
    CommonExceptionLines(l, e, "API EXCEPTION", "INNER EXCEPTION");
    OperationLine(l, e);
  }

  /** The operation line of an API exception with a request: the method and
      the address behind the indented warning prefix. */
  lemma OperationLine(l: FancyLogger, e: Exception)
    requires e.Api? && e.requestMethod.Some?
    requires Text.NoBraces(e.requestMethod.value) && Text.NoBraces(e.uri)
    ensures l.OperationOutput(e) == Emit(Warning, "    " + Indent + "OPERATION:  " + e.requestMethod.value + " - " + e.uri
                                                  + l.newLine + l.newLine)
  {
    NewLineNoBraces(l.newLine);
    var op := "OPERATION:  " + e.requestMethod.value + " - " + e.uri + l.newLine;
    assert OperationWarning(e, l.newLine) == Success(op);
    MessagePrefixes(l, op, true, true, []);
    assert "    " + AddIndent(true) == "    " + Indent;
    OperationWarningLine("    " + Indent, e.requestMethod.value, e.uri, l.newLine);
  }

  /** An API exception without a request: after the common lines, reading
      the request's method throws a null reference, and the content is not
      logged. */
  lemma ApiExceptionWithoutRequest(l: FancyLogger, js: RootSerializer.SerializerSettings, e: Exception)
    requires e.Api? && e.requestMethod.None?
    ensures var common := l.CommonExceptionOutput(e, "API EXCEPTION", "INNER EXCEPTION");
            l.ApiExceptionOutput(js, e)
              == if common.thrown.Some? then common else Emission(common.entries, Some(NullReferenceException))
  {
    var common := l.CommonExceptionOutput(e, "API EXCEPTION", "INNER EXCEPTION");
    assert common.entries + [] == common.entries;
  }

  /** A format that `string.Format` rejects inside `LogDebug` is caught and
      logged as a general exception: one warning with the runtime's
      message, and nothing escapes. */
  lemma DebugFormatFaultLogged(l: FancyLogger, format: string, addIndent: bool, newLineAfter: bool, args: seq<string>)
    requires args != [] && Text.Format(format, args).None?
    ensures l.DebugOutput(format, addIndent, newLineAfter, args)
            == Emission([Entry(Warning, "    " + Indent + "EXCEPTION" + ":  " + FormatException.message
                                        + l.newLine + l.newLine)], None)
  {
    FormatFault();
    NoBracesByChars("EXCEPTION");
    CommonExceptionLines(l, FormatException, "EXCEPTION", "INNER EXCEPTION");
    var r := l.CommonExceptionOutput(FormatException, "EXCEPTION", "INNER EXCEPTION");
    assert l.DebugOutput(format, addIndent, newLineAfter, args) == l.GeneralExceptionOutput(FormatException) == r;
    assert |r.entries| == 1;
    assert r.entries == [r.entries[0]];
  }

  /** With a message, an inner message and a path free of braces, a JSON
      exception writes the common lines under "JSON EXCEPTION", then the
      line number and the byte position joined by an indented dash, then
      the path, each after four spaces and the indent; nothing escapes. */
  lemma JsonExceptionLines(l: FancyLogger, e: Exception)
    requires e.Json? && Text.NoBraces(e.message) && Text.NoBraces(e.path)
    requires e.inner.Some? ==> Text.NoBraces(e.inner.value.message)
    ensures var r := l.JsonExceptionOutput(e);
            r.thrown.None?
            && r.entries == l.CommonExceptionOutput(e, "JSON EXCEPTION", "INNER EXCEPTION").entries
                            + [Entry(Warning, "    " + Indent
                                              + ("LINE:  " + Text.NullableIntToString(e.lineNumber) + Indent + "-"
                                                 + Indent + Text.NullableIntToString(e.bytePositionInLine))
                                              + l.newLine),
                               Entry(Warning, "    " + Indent + ("PATH:  " + e.path) + l.newLine)]
  {
    NoBracesByChars("JSON EXCEPTION");
    NoBracesByChars("INNER EXCEPTION");
    CommonExceptionLines(l, e, "JSON EXCEPTION", "INNER EXCEPTION");
    var w := JsonPositionWarnings(e);
    MessagePrefixes(l, w[0], true, true, []);
    MessagePrefixes(l, w[1], true, true, []);
  }

  // ---------------------------------------------------------- problems

  /** With a title and a detail free of braces, a problem starts with three
      warnings after four spaces and the indent, none ended: the heading,
      the quoted title and the quoted detail, a null member quoted as
      empty. */
  lemma ProblemDetailsHeadLines(l: FancyLogger, p: ProblemDetails)
    requires Text.NoBraces(p.title.GetOr("")) && Text.NoBraces(p.detail.GetOr(""))
    ensures l.ProblemDetailsHead(p)
            == Emission([Entry(Warning, "    " + Indent + "PROBLEMDETAILS"),
                         Entry(Warning, "    " + Indent + ("Title: '" + p.title.GetOr("") + "'")),
                         Entry(Warning, "    " + Indent + ("Detail: '" + p.detail.GetOr("") + "'"))], None)
  {
    NoBracesByChars("PROBLEMDETAILS");
    NoBracesByChars("Title: '");
    NoBracesByChars("Detail: '");
    UnendedWarning(l, "PROBLEMDETAILS");
    UnendedWarning(l, "Title: '" + p.title.GetOr("") + "'");
    UnendedWarning(l, "Detail: '" + p.detail.GetOr("") + "'");
  }

  /** A brace-free warning of a problem: four spaces, the indent, the text. */
  lemma UnendedWarning(l: FancyLogger, format: string)
    requires Text.NoBraces(format)
    ensures l.WarningOutput(format, true, false, []) == Emit(Warning, "    " + Indent + format)
  {
    Text.FormatWithoutBraces(format, []);
    assert Text.Chars(' ', 4) == "    ";
  }

  /** When the status has a title in the status table, a problem goes on
      with three debug lines after six spaces and the indent, none ended:
      the code and its title, the quoted instance URL and the quoted type.
      Nothing is formatted, so braces in them are written as they are. */
  lemma ProblemDetailsDebugLines(l: FancyLogger, p: ProblemDetails)
    requires p.status.Some? && l.foreign.statusTitle(p.status.value).Some?
    ensures l.ProblemDetailsLines(p)
            == Emission([Entry(Debug, "      " + Indent
                                      + ("Status Code: " + Indent + Text.IntToString(p.status.value)
                                         + " - " + l.foreign.statusTitle(p.status.value).value)),
                         Entry(Debug, "      " + Indent + ("Instance URL: " + Indent + "'" + p.instance.GetOr("") + "'")),
                         Entry(Debug, "      " + Indent + ("Type Info: " + Indent + "'" + p.problemType.GetOr("") + "'"))],
                        None)
  {
    assert Text.Chars(' ', 6) == "      ";
  }

  /** A null status, a status missing from the status table, or a brace
      that breaks one of the three warnings stops a problem early: what was
      written stays, the debug lines and the dictionaries are skipped, and
      the fault is logged as one general-exception warning. */
  lemma ProblemDetailsFault(l: FancyLogger, js: RootSerializer.SerializerSettings, fuel: nat, p: ProblemDetails)
    ensures var head := l.ProblemDetailsHead(p);
            var fault := if head.thrown.Some? then FormatException
                         else if p.status.None? then ArgumentNullException else KeyNotFoundException;
            head.thrown.Some? || p.status.None? || l.foreign.statusTitle(p.status.value).None? ==>
              l.ProblemDetailsOutputAt(js, fuel, Some(p))
              == Emission(head.entries + [Entry(Warning, "    " + Indent + "EXCEPTION" + ":  " + fault.message
                                                          + l.newLine + l.newLine)], None)
  {
    var head := l.ProblemDetailsHead(p);
    if head.thrown.Some? || p.status.None? || l.foreign.statusTitle(p.status.value).None? {
      var fault := if head.thrown.Some? then FormatException
                   else if p.status.None? then ArgumentNullException else KeyNotFoundException;
      ProblemBodyThrows(l, js, fuel, p, fault);
      ConstantFaults();
      GeneralFaultLine(l, fault);
    }
  }

  /** The body of a problem stops with the fault of its head or of its
      status line, after the head's entries. */
  lemma ProblemBodyThrows(l: FancyLogger, js: RootSerializer.SerializerSettings, fuel: nat, p: ProblemDetails,
                          fault: Exception)
    requires var head := l.ProblemDetailsHead(p);
             fault == if head.thrown.Some? then FormatException
                      else if p.status.None? then ArgumentNullException else KeyNotFoundException
    requires l.ProblemDetailsHead(p).thrown.Some? || p.status.None? || l.foreign.statusTitle(p.status.value).None?
    ensures l.ProblemDetailsBody(js, fuel, p) == Emission(l.ProblemDetailsHead(p).entries, Some(fault))
  {
    var head := l.ProblemDetailsHead(p);
    if head.thrown.None? {
      assert l.ProblemDetailsLines(p) == Throw(fault);
      assert head.entries + [] == head.entries;
    }
  }

  /** A runtime fault is logged as one warning: four spaces, the indent,
      "EXCEPTION", then its message and two line ends. */
  lemma GeneralFaultLine(l: FancyLogger, fault: Exception)
    requires IsRuntimeFault(fault)
    ensures l.GeneralExceptionOutput(fault)
            == Emission([Entry(Warning, "    " + Indent + "EXCEPTION" + ":  " + fault.message + l.newLine + l.newLine)],
                        None)
  {
    NoBracesByChars("EXCEPTION");
    CommonExceptionLines(l, fault, "EXCEPTION", "INNER EXCEPTION");
    var general := l.GeneralExceptionOutput(fault);
    assert general.entries == [general.entries[0]];
  }

  /** An object that is neither ignored nor null is logged from what the
      serializer returns, which is a problem or a text and never both: a
      problem is logged as `LogProblemDetails` logs it and nothing more; a
      text that is not blank is one Trace line of six spaces, the optional
      indent, the label, a colon and a line end, then the text; a blank
      text writes nothing. */
  lemma ObjectLines(l: FancyLogger, js: RootSerializer.SerializerSettings, fuel: nat, obj: Option<Obj>, t: TypeArg,
                    keepNulls: bool, labelText: Option<string>, addIndent: bool, newLineAfter: bool)
    ensures var r := l.ObjectOutputAt(js, fuel, obj, t, false, keepNulls, labelText, addIndent, newLineAfter);
            var outcome := Json.ToJson(l.foreign, t, obj, js.read, js.write);
            obj.Some? ==>
              (outcome.problemDetails.Some? ==> r == l.ProblemDetailsOutputAt(js, fuel, outcome.problemDetails))
              && (!Text.IsNullOrWhiteSpace(outcome.formattedJson)
                  ==> r == Emit(Trace, l.Ended("      " + (AddIndent(addIndent) + labelText.GetOr("") + ":" + l.newLine
                                                           + outcome.formattedJson.value), newLineAfter)))
              && (outcome.formattedJson.Some? && Text.IsBlank(outcome.formattedJson.value) ==> r == Nothing)
  {
    var outcome := Json.ToJson(l.foreign, t, obj, js.read, js.write);
    if obj.Some? {
      var r := l.ObjectOutputAt(js, fuel, obj, t, false, keepNulls, labelText, addIndent, newLineAfter);
      if outcome.problemDetails.Some? {
        var p := l.ProblemDetailsOutputAt(js, fuel, outcome.problemDetails);
        assert r == p.Then(Nothing);
        assert p.entries + [] == p.entries;
      } else if !Text.IsNullOrWhiteSpace(outcome.formattedJson) {
        var format := AddIndent(addIndent) + labelText.GetOr("") + ":" + l.newLine + outcome.formattedJson.value;
        assert r == Nothing.Then(l.TraceOutput(format, false, newLineAfter, []));
        assert Text.Chars(' ', 6) + AddIndent(false) == "      ";
      }
    }
  }

  /** A string logged as a string is its own text: when it is not blank,
      it is written under its label as one Trace line. */
  lemma StringObjectLine(l: FancyLogger, js: RootSerializer.SerializerSettings, fuel: nat, s: string, t: TypeArg,
                         keepNulls: bool, labelText: Option<string>, addIndent: bool, newLineAfter: bool)
    requires t.StringType?
    ensures !Text.IsBlank(s) ==>
              l.ObjectOutputAt(js, fuel, Some(Str(s)), t, false, keepNulls, labelText, addIndent, newLineAfter)
              == Emit(Trace, l.Ended("      " + (AddIndent(addIndent) + labelText.GetOr("") + ":" + l.newLine + s),
                                     newLineAfter))
    ensures Text.IsBlank(s) ==>
              l.ObjectOutputAt(js, fuel, Some(Str(s)), t, false, keepNulls, labelText, addIndent, newLineAfter) == Nothing
  {
    ObjectLines(l, js, fuel, Some(Str(s)), t, keepNulls, labelText, addIndent, newLineAfter);
  }

  // --------------------------------------------------------- structural

  /** A divider is the configured pattern tiled to exactly the configured
      width (nothing for a width that is not positive), written after the
      indent and followed by a line end, at Information level. */
  lemma DividerLine(l: FancyLogger, padLength: int, padString: string)
    requires padString != "" && Text.NoBraces(padString)
    ensures var line := StringExtensions.PadRight(Some(""), padLength, Some(padString));
            l.DividerOutput(padLength, padString) == Emit(Information, Indent + line + l.newLine)
            && |line| == (if padLength <= 0 then 0 else padLength)
            && forall i :: 0 <= i < |line| ==> line[i] == padString[i % |padString|]
  {
    var line := StringExtensions.PadRight(Some(""), padLength, Some(padString));
    EmptyPadded(padLength, padString);
    PaddedNoBraces("", padLength, padString);
    MessagePrefixes(l, line, true, true, []);
    assert l.Ended(AddIndent(true) + line, true) == Indent + line + l.newLine;
  }

  /** The empty text padded with a pattern is the pattern tiled to the width. */
  lemma EmptyPadded(padLength: int, padString: string)
    requires padString != ""
    ensures var line := StringExtensions.PadRight(Some(""), padLength, Some(padString));
            |line| == (if padLength <= 0 then 0 else padLength)
            && forall i :: 0 <= i < |line| ==> line[i] == padString[i % |padString|]
  {
    var line := StringExtensions.PadRight(Some(""), padLength, Some(padString));
    forall i | 0 <= i < |line|
      ensures line[i] == padString[i % |padString|]
    {
      assert line[i] == padString[(i - 0) % |padString|];
    }
  }

  /** A section, subsection, header or footer line: the formatted title,
      trimmed and followed by one space, padded to the width with the
      pattern, written after the indent and followed by a line end, when
      the padded text holds no brace. */
  lemma TitledLine(l: FancyLogger, format: string, args: seq<string>, padLength: int, padString: string)
    requires Text.Format(format, args).Some?
    requires Text.NoBraces(StringExtensions.PadRight(Some(Text.Trim(Text.Format(format, args).value) + " "),
                                                     padLength, Some(padString)))
    ensures var body := StringExtensions.PadRight(Some(Text.Trim(Text.Format(format, args).value) + " "),
                                                  padLength, Some(padString));
            l.TitledOutput(format, args, padLength, padString) == Emit(Information, Indent + body + l.newLine)
  {
    var body := StringExtensions.PadRight(Some(Text.Trim(Text.Format(format, args).value) + " "),
                                          padLength, Some(padString));
    MessagePrefixes(l, body, true, true, []);
  }

  /** The padded title is handed to `LogInfo` as a format and formatted a
      second time: an escaped placeholder in a title, which the first
      formatting turns into a real one, throws whatever the width and the
      pattern. */
  lemma TitleFormattedTwice(l: FancyLogger, padLength: int, padString: string)
    ensures Text.Format("{{0}}", []) == Some("{0}")
    ensures l.TitledOutput("{{0}}", [], padLength, padString) == Throw(FormatException)
  {
    Text.FormatEscapedPlaceholder();
    Text.TrimOfTrimmed("{0}");
    PaddedPlaceholderThrows(padLength, padString);
  }

  /** A text that starts with a placeholder still starts with it once
      padded, and formatting it without arguments throws. */
  lemma PaddedPlaceholderThrows(padLength: int, padString: string)
    ensures Text.Format(StringExtensions.PadRight(Some("{0}" + " "), padLength, Some(padString)), []).None?
  {
    var t := "{0}" + " ";
    var body := StringExtensions.PadRight(Some(t), padLength, Some(padString));
    assert body[..|t|] == t;
    assert body[0] == '{' && body[1] == '0' && body[2] == '}';
    Text.FormatMissingArgument(body, []);
  }

  // ------------------------------------------------------------ options

  /** Two loggers built without their own options object share the static
      one: a prefix given to the first is what the second reads back, and
      a logger given its own options is not affected. */
  method SharedDefaultOptions(foreign: Foreign, newLine: NewLine, first: Sink, second: Sink)
    returns (a: FancyLogger, b: FancyLogger, c: FancyLogger)
    ensures a.allLinesPrefixString == "API" && b.allLinesPrefixString == "API"
    ensures a.loggerOptions == b.loggerOptions
    ensures c.allLinesPrefixString == "LOG" && c.loggerOptions != a.loggerOptions
  {
    var statics := new FancyLoggerStatics();
    a := new FancyLogger(statics, Some(first), Some("API"), None, None, None, None, newLine, foreign);
    assert a.allLinesPrefixString == "API" && a.loggerOptions == statics.defaultLoggerOptions;
    b := new FancyLogger(statics, Some(second), None, None, None, None, None, newLine, foreign);
    assert a.allLinesPrefixString == "API" && b.loggerOptions == a.loggerOptions;
    var own := new FancyLoggerOptions();
    c := new FancyLogger(statics, Some(second), None, None, Some(own), None, None, newLine, foreign);
  }
}
