/** What the lines of `FancyLoggerService` look like: the message prefixes,
    the exception lines, the header, subheader, footer and horizontal lines,
    and the configuration a logger built with the defaults has. */
module FancyLoggerServiceProperties {
  import opened Wrappers
  import Text
  import opened Characters
  import opened Exceptions
  import opened Sinks
  import opened Json
  import opened FancyLoggerServices

  lemma NewLineNoBraces(n: NewLine)
    ensures Text.NoBraces(n)
  {
  }

  // ----------------------------------------------------------- prefixes

  /** For a text without braces, whatever the arguments: a warning starts
      with five spaces, an information line with nothing, debug and trace
      lines with six spaces, each followed by the indent and the optional
      second one. */
  lemma MessagePrefixes(l: FancyLoggerService, format: string, addIndent: bool, newLineAfter: bool, args: seq<string>)
    requires Text.NoBraces(format)
    ensures l.WarningOutput(format, addIndent, newLineAfter, args)
            == Emit(Warning, l.Ended("     " + AddIndent(addIndent) + format, newLineAfter))
    ensures l.InfoOutput(format, addIndent, newLineAfter, args)
            == Emit(Information, l.Ended(AddIndent(addIndent) + format, newLineAfter))
    ensures l.DebugOutput(format, addIndent, newLineAfter, args)
            == Emit(Debug, l.Ended("      " + AddIndent(addIndent) + format, newLineAfter))
    ensures l.TraceOutput(format, addIndent, newLineAfter, args)
            == Emit(Trace, l.Ended("      " + AddIndent(addIndent) + format, newLineAfter))
  {
    Text.FormatWithoutBraces(format, args);
    assert Text.Chars(' ', 5) == "     ";
    assert Text.Chars(' ', 6) == "      ";
  }

  /** A scalar is six spaces, the indent and the optional one, then the
      label and the value on either side of a tab-framed `=`, at Trace
      level. */
  lemma ScalarLine(l: FancyLoggerService, labelText: string, value: string, addIndent: bool, newLineAfter: bool)
    ensures l.ScalarOutput(labelText, value, addIndent, newLineAfter)
            == Emit(Trace, l.Ended("      " + AddIndent(addIndent) + labelText + "\t=\t" + value, newLineAfter))
  {
    assert Text.Chars(' ', 6) == "      ";
    var front := "      " + AddIndent(addIndent) + labelText;
    assert front + Indent + "=" + Indent + value == front + "\t=\t" + value;
  }

  // --------------------------------------------------------- exceptions

  /** `LogException` hands each exception to the handler of its type:
      API exceptions (validation ones included), HTTP request exceptions,
      JSON exceptions, then everything else. */
  lemma ExceptionDispatch(l: FancyLoggerService, js: RootSerializer.SerializerSettings, e: Exception)
    ensures e.Api? ==> l.ExceptionOutput(js, e) == l.ApiExceptionOutput(js, e)
    ensures e.HttpRequest? ==> l.ExceptionOutput(js, e) == l.HttpRequestExceptionOutput(e)
    ensures e.Json? ==> l.ExceptionOutput(js, e) == l.JsonExceptionOutput(e)
    ensures !(e.Api? || e.HttpRequest? || e.Json?) ==> l.ExceptionOutput(js, e) == l.GeneralExceptionOutput(e)
  {
    RouteByType(e);
  }

  /** With texts free of braces, `LogCommonException` writes one warning
      with the outer label and the message, and a second one, indented
      once more, with the inner label and the inner message exactly when
      that message is neither null nor white space. */
  lemma CommonExceptionLines(l: FancyLoggerService, e: Exception, outerLabel: string, innerLabel: string)
    requires Text.NoBraces(outerLabel) && Text.NoBraces(e.message)
    requires e.inner.Some? ==> Text.NoBraces(innerLabel) && Text.NoBraces(e.inner.value.message)
    ensures var r := l.CommonExceptionOutput(e, outerLabel, innerLabel);
            r.thrown.None?
            && |r.entries| == (if Text.IsNullOrWhiteSpace(InnerMessage(e)) then 1 else 2)
            && r.entries[0] == Entry(Warning, "     " + Indent + outerLabel + ":  " + e.message + l.newLine + l.newLine)
            && (|r.entries| == 2 ==>
                  r.entries[1] == Entry(Warning, "     " + Indent + Indent + innerLabel + ":  "
                                                 + e.inner.value.message + l.newLine + l.newLine))
  {
    NewLineNoBraces(l.newLine);
    var w := CommonWarnings(e, outerLabel, innerLabel, l.newLine);
    CommonWarningsPlain(e, outerLabel, innerLabel, "     " + Indent, l.newLine);
    assert l.CommonExceptionOutput(e, outerLabel, innerLabel) == l.Warnings(w);
    assert Text.Chars(' ', 5) == "     ";
  }

  /** The text of an information line written with the default flags. */
  lemma InfoPlain(l: FancyLoggerService, t: string)
    requires Text.NoBraces(t)
    ensures l.InfoOutput(t, false, true, []) == Emit(Information, Indent + t + l.newLine)
  {
    Text.FormatWithoutBraces(t, []);
  }

  /** The operation line of an API exception with a request. */
  lemma OperationLine(l: FancyLoggerService, e: Exception)
    requires e.Api? && e.requestMethod.Some?
    requires Text.NoBraces(e.requestMethod.value) && Text.NoBraces(e.uri)
    ensures l.OperationOutput(e) == Emit(Warning, "     " + Indent + "OPERATION:  " + e.requestMethod.value + " - "
                                                  + e.uri + l.newLine + l.newLine)
  {
    NewLineNoBraces(l.newLine);
    var op := "OPERATION:  " + e.requestMethod.value + " - " + e.uri + l.newLine;
    assert OperationWarning(e, l.newLine) == Success(op);
    MessagePrefixes(l, op, false, true, []);
    assert "     " + AddIndent(false) == "     " + Indent;
    OperationWarningLine("     " + Indent, e.requestMethod.value, e.uri, l.newLine);
  }

  /** An API exception with a request writes the common lines, the
      operation line, then the content, and lets nothing escape when its
      texts hold no brace; null or white-space content adds nothing. */
  lemma ApiExceptionLines(l: FancyLoggerService, js: RootSerializer.SerializerSettings, e: Exception)
    requires e.Api? && e.requestMethod.Some?
    requires Text.NoBraces(e.message) && (e.inner.Some? ==> Text.NoBraces(e.inner.value.message))
    requires Text.NoBraces(e.requestMethod.value) && Text.NoBraces(e.uri)
    ensures var r := l.ApiExceptionOutput(js, e);
            r.thrown.None?
            && r.entries == l.CommonExceptionOutput(e, "API EXCEPTION", "INNER EXCEPTION").entries
                            + [Entry(Warning, "     " + Indent + "OPERATION:  " + e.requestMethod.value + " - " + e.uri
                                              + l.newLine + l.newLine)]
                            + l.ContentOutput(js, e).entries
    ensures Text.IsNullOrWhiteSpace(e.content) ==> l.ContentOutput(js, e).entries == []
  {
    CommonExceptionLines(l, e, "API EXCEPTION", "INNER EXCEPTION");
    OperationLine(l, e);
  }

  /** A format that `string.Format` rejects inside `LogDebug` is caught and
      logged as a general exception: one warning with the runtime's
      message, and nothing escapes. */
  lemma DebugFormatFaultLogged(l: FancyLoggerService, format: string, addIndent: bool, newLineAfter: bool,
                               args: seq<string>)
    requires args != [] && Text.Format(format, args).None?
    ensures l.DebugOutput(format, addIndent, newLineAfter, args)
            == Emission([Entry(Warning, "     " + Indent + "EXCEPTION" + ":  " + FormatException.message
                                        + l.newLine + l.newLine)], None)
  {
    FormatFault();
    NoBracesByChars("EXCEPTION");
    CommonExceptionLines(l, FormatException, "EXCEPTION", "INNER EXCEPTION");
    var r := l.CommonExceptionOutput(FormatException, "EXCEPTION", "INNER EXCEPTION");
    assert l.DebugOutput(format, addIndent, newLineAfter, args) == l.GeneralExceptionOutput(FormatException) == r;
    assert |r.entries| == 1;
    assert r.entries == [r.entries[0]];
  }

  /** With a message, an inner message and a path free of braces, a JSON
      exception writes the common lines under "JSON EXCEPTION", then the
      line number and the byte position joined by an indented dash, then
      the path, each after five spaces and the indent; nothing escapes. */
  lemma JsonExceptionLines(l: FancyLoggerService, e: Exception)
    requires e.Json? && Text.NoBraces(e.message) && Text.NoBraces(e.path)
    requires e.inner.Some? ==> Text.NoBraces(e.inner.value.message)
    ensures var r := l.JsonExceptionOutput(e);
            r.thrown.None?
            && r.entries == l.CommonExceptionOutput(e, "JSON EXCEPTION", "INNER EXCEPTION").entries
                            + [Entry(Warning, "     " + Indent
                                              + ("LINE:  " + Text.NullableIntToString(e.lineNumber) + Indent + "-"
                                                 + Indent + Text.NullableIntToString(e.bytePositionInLine))
                                              + l.newLine),
                               Entry(Warning, "     " + Indent + ("PATH:  " + e.path) + l.newLine)]
  {
    NoBracesByChars("JSON EXCEPTION");
    NoBracesByChars("INNER EXCEPTION");
    CommonExceptionLines(l, e, "JSON EXCEPTION", "INNER EXCEPTION");
    var w := JsonPositionWarnings(e);
    MessagePrefixes(l, w[0], false, true, []);
    MessagePrefixes(l, w[1], false, true, []);
  }

  // ---------------------------------------------------------- problems

  /** With a title and a detail free of braces, a problem starts with three
      warnings after five spaces and the indent, none ended: the heading,
      the quoted title and the quoted detail, a null member quoted as
      empty. */
  lemma ProblemDetailsHeadLines(l: FancyLoggerService, p: ProblemDetails)
    requires Text.NoBraces(p.title.GetOr("")) && Text.NoBraces(p.detail.GetOr(""))
    ensures l.ProblemDetailsHead(p)
            == Emission([Entry(Warning, "     " + Indent + "PROBLEMDETAILS"),
                         Entry(Warning, "     " + Indent + ("Title: '" + p.title.GetOr("") + "'")),
                         Entry(Warning, "     " + Indent + ("Detail: '" + p.detail.GetOr("") + "'"))], None)
  {
    NoBracesByChars("PROBLEMDETAILS");
    NoBracesByChars("Title: '");
    NoBracesByChars("Detail: '");
    UnendedWarning(l, "PROBLEMDETAILS");
    UnendedWarning(l, "Title: '" + p.title.GetOr("") + "'");
    UnendedWarning(l, "Detail: '" + p.detail.GetOr("") + "'");
  }

  /** A brace-free warning of a problem: five spaces, the indent, the text. */
  lemma UnendedWarning(l: FancyLoggerService, format: string)
    requires Text.NoBraces(format)
    ensures l.WarningOutput(format, false, false, []) == Emit(Warning, "     " + Indent + format)
  {
    Text.FormatWithoutBraces(format, []);
    assert Text.Chars(' ', 5) == "     ";
  }

  /** When the status has a title in the status table, a problem goes on
      with three debug lines after six spaces and the indent, none ended:
      the code and its title, the quoted instance URL and the quoted type.
      Nothing is formatted, so braces in them are written as they are. */
  lemma ProblemDetailsDebugLines(l: FancyLoggerService, p: ProblemDetails)
    requires p.status.Some? && l.foreign.statusTitle(p.status.value).Some?
    ensures l.ProblemDetailsLines(p)
            == Emission([Entry(Debug, "      " + Indent
                                      + ("Status Code: " + Indent + Text.IntToString(p.status.value)
                                         + " - " + l.foreign.statusTitle(p.status.value).value)),
                         Entry(Debug, "      " + Indent + ("Instance URL: " + Indent + "'" + p.instance.GetOr("") + "'")),
                         Entry(Debug, "      " + Indent + ("Type Info: " + Indent + "'" + p.problemType.GetOr("") + "'"))],
                        None)
  {
    assert Text.Chars(' ', 6) == "      ";
    assert AddIndent(false) == Indent;
  }

  /** A null status, a status missing from the status table, or a brace
      that breaks one of the three warnings stops a problem early: what was
      written stays, the debug lines and the dictionaries are skipped, and
      the fault is logged as one general-exception warning. */
  lemma ProblemDetailsFault(l: FancyLoggerService, js: RootSerializer.SerializerSettings, fuel: nat, p: ProblemDetails)
    ensures var head := l.ProblemDetailsHead(p);
            var fault := if head.thrown.Some? then FormatException
                         else if p.status.None? then ArgumentNullException else KeyNotFoundException;
            head.thrown.Some? || p.status.None? || l.foreign.statusTitle(p.status.value).None? ==>
              l.ProblemDetailsOutputAt(js, fuel, Some(p))
              == Emission(head.entries + [Entry(Warning, "     " + Indent + "EXCEPTION" + ":  " + fault.message
                                                          + l.newLine + l.newLine)], None)
  {
    var head := l.ProblemDetailsHead(p);
    if head.thrown.Some? || p.status.None? || l.foreign.statusTitle(p.status.value).None? {
      var fault := if head.thrown.Some? then FormatException
                   else if p.status.None? then ArgumentNullException else KeyNotFoundException;
      ProblemBodyThrows(l, js, fuel, p, fault);
      ConstantFaults();
      GeneralFaultLine(l, fault);
    }
  }

  /** The body of a problem stops with the fault of its head or of its
      status line, after the head's entries. */
  lemma ProblemBodyThrows(l: FancyLoggerService, js: RootSerializer.SerializerSettings, fuel: nat, p: ProblemDetails,
                          fault: Exception)
    requires var head := l.ProblemDetailsHead(p);
             fault == if head.thrown.Some? then FormatException
                      else if p.status.None? then ArgumentNullException else KeyNotFoundException
    requires l.ProblemDetailsHead(p).thrown.Some? || p.status.None? || l.foreign.statusTitle(p.status.value).None?
    ensures l.ProblemDetailsBody(js, fuel, p) == Emission(l.ProblemDetailsHead(p).entries, Some(fault))
  {
    var head := l.ProblemDetailsHead(p);
    if head.thrown.None? {
      assert l.ProblemDetailsLines(p) == Throw(fault);
      assert head.entries + [] == head.entries;
    }
  }

  /** A runtime fault is logged as one warning: five spaces, the indent,
      "EXCEPTION", then its message and two line ends. */
  lemma GeneralFaultLine(l: FancyLoggerService, fault: Exception)
    requires IsRuntimeFault(fault)
    ensures l.GeneralExceptionOutput(fault)
            == Emission([Entry(Warning, "     " + Indent + "EXCEPTION" + ":  " + fault.message + l.newLine + l.newLine)],
                        None)
  {
    NoBracesByChars("EXCEPTION");
    CommonExceptionLines(l, fault, "EXCEPTION", "INNER EXCEPTION");
    var general := l.GeneralExceptionOutput(fault);
    assert general.entries == [general.entries[0]];
  }

  /** An object that is neither ignored nor null is logged from what the
      serializer returns, which is a problem or a text and never both: a
      problem is logged as `LogProblemDetails` logs it and nothing more; a
      text that is not blank is one Trace line of six spaces, the indent,
      the label, a colon and a line end, then the text; a blank
      text writes nothing. */
  lemma ObjectLines(l: FancyLoggerService, js: RootSerializer.SerializerSettings, fuel: nat, obj: Option<Obj>, t: TypeArg,
                    keepNulls: bool, labelText: Option<string>, newLineAfter: bool)
    ensures var r := l.ObjectOutputAt(js, fuel, obj, t, false, keepNulls, labelText, newLineAfter);
            var outcome := Json.ToJson(l.foreign, t, obj, js.read, js.write);
            obj.Some? ==>
              (outcome.problemDetails.Some? ==> r == l.ProblemDetailsOutputAt(js, fuel, outcome.problemDetails))
              && (!Text.IsNullOrWhiteSpace(outcome.formattedJson)
                  ==> r == Emit(Trace, l.Ended("      " + Indent + (labelText.GetOr("") + ":" + l.newLine
                                                                    + outcome.formattedJson.value), newLineAfter)))
              && (outcome.formattedJson.Some? && Text.IsBlank(outcome.formattedJson.value) ==> r == Nothing)
  {
    var outcome := Json.ToJson(l.foreign, t, obj, js.read, js.write);
    if obj.Some? {
      var r := l.ObjectOutputAt(js, fuel, obj, t, false, keepNulls, labelText, newLineAfter);
      if outcome.problemDetails.Some? {
        var p := l.ProblemDetailsOutputAt(js, fuel, outcome.problemDetails);
        assert r == p.Then(Nothing);
        assert p.entries + [] == p.entries;
      } else if !Text.IsNullOrWhiteSpace(outcome.formattedJson) {
        var format := labelText.GetOr("") + ":" + l.newLine + outcome.formattedJson.value;
        assert r == Nothing.Then(l.TraceOutput(format, false, newLineAfter, []));
        assert Text.Chars(' ', 6) == "      ";
      }
    }
  }

  /** A string logged as a string is its own text: when it is not blank,
      it is written under its label as one Trace line. */
  lemma StringObjectLine(l: FancyLoggerService, js: RootSerializer.SerializerSettings, fuel: nat, s: string, t: TypeArg,
                         keepNulls: bool, labelText: Option<string>, newLineAfter: bool)
    requires t.StringType?
    ensures !Text.IsBlank(s) ==>
              l.ObjectOutputAt(js, fuel, Some(Str(s)), t, false, keepNulls, labelText, newLineAfter)
              == Emit(Trace, l.Ended("      " + Indent + (labelText.GetOr("") + ":" + l.newLine + s),
                                     newLineAfter))
    ensures Text.IsBlank(s) ==>
              l.ObjectOutputAt(js, fuel, Some(Str(s)), t, false, keepNulls, labelText, newLineAfter) == Nothing
  {
    ObjectLines(l, js, fuel, Some(Str(s)), t, keepNulls, labelText, newLineAfter);
  }

  // --------------------------------------------------------- structural

  /** Padding with a character that is not a brace brings in no brace. */
  lemma PaddedNoBraces(t: string, padLength: int, padChar: char)
    requires padLength >= 0 && Text.NoBraces(t) && padChar != '{' && padChar != '}'
    ensures Text.NoBraces(Text.PadRightChar(t, padLength, padChar).value)
  {
    var padded := Text.PadRightChar(t, padLength, padChar).value;
    forall i | 0 <= i < |padded|
      ensures padded[i] != '{' && padded[i] != '}'
    {
      if i < |t| {
        assert padded[i] == padded[..|t|][i];
      }
    }
  }

  /** The title, trimmed and followed by one space, holds no brace when the
      trimmed title holds none. */
  lemma SpacedNoBraces(title: string)
    requires Text.NoBraces(Text.Trim(title))
    ensures Text.NoBraces(Text.Trim(title) + " ")
  {
    var t := Text.Trim(title) + " ";
    forall i | 0 <= i < |t|
      ensures t[i] != '{' && t[i] != '}'
    {
      if i < |t| - 1 {
        assert t[i] == Text.Trim(title)[i];
      }
    }
  }

  /** A header, subheader or footer line for a title whose formatted,
      trimmed text holds no brace and a padding character that is not a
      brace: the trimmed title and one space, padded with the character to
      the width, written after the indent and followed by a line end. */
  lemma PaddedLine(l: FancyLoggerService, format: string, args: seq<string>, padLength: int, padChar: char)
    requires Text.Format(format, args).Some? && padLength >= 0
    requires Text.NoBraces(Text.Trim(Text.Format(format, args).value)) && padChar != '{' && padChar != '}'
    ensures var t := Text.Trim(Text.Format(format, args).value) + " ";
            var padded := Text.PadRightChar(t, padLength, padChar).value;
            l.PaddedOutput(format, args, padLength, padChar) == Emit(Information, Indent + padded + l.newLine)
            && |padded| == (if padLength <= |t| then |t| else padLength)
            && padded[..|t|] == t
            && forall i :: |t| <= i < |padded| ==> padded[i] == padChar
  {
    var t := Text.Trim(Text.Format(format, args).value) + " ";
    var padded := Text.PadRightChar(t, padLength, padChar).value;
    SpacedNoBraces(Text.Format(format, args).value);
    PaddedNoBraces(t, padLength, padChar);
    assert l.PaddedOutput(format, args, padLength, padChar) == l.InfoOutput(padded, false, true, []);
    InfoPlain(l, padded);
  }

  /** A line of one repeated character that is not white space is its own
      trimmed form, and one space longer than its count, so padding it to
      that count leaves it alone. */
  lemma RepeatedTitle(c: char, n: nat)
    requires !Text.IsWhiteSpace(c) && c != '{' && c != '}'
    ensures var line := Text.Chars(c, n);
            Text.Format(line, []) == Some(line) && Text.Trim(line) == line
            && Text.PadRightChar(line + " ", n, c) == Some(line + " ")
  {
    var line := Text.Chars(c, n);
    assert Text.NoBraces(line);
    Text.FormatWithoutBraces(line, []);
    Text.TrimOfTrimmed(line);
  }

  /** A horizontal line with a width that is not negative and a character
      that is neither white space nor a brace: the character repeated to
      the width, then the space the header adds, which the padding never
      covers, since the text is already one longer than the width. */
  lemma HorizontalLine(l: FancyLoggerService)
    requires l.headerLength >= 0
    requires !Text.IsWhiteSpace(l.headerChar) && l.headerChar != '{' && l.headerChar != '}'
    ensures l.HorizontalLineOutput()
            == Emit(Information, Indent + Text.Chars(l.headerChar, l.headerLength) + " " + l.newLine)
  {
    var line := Text.Chars(l.headerChar, l.headerLength);
    RepeatedTitle(l.headerChar, l.headerLength);
    assert Text.NoBraces(line);
    SpacedNoBraces(line);
    assert l.HorizontalLineOutput() == l.PaddedOutput(line, [], l.headerLength, l.headerChar);
    assert l.PaddedOutput(line, [], l.headerLength, l.headerChar) == l.InfoOutput(line + " ", false, true, []);
    InfoPlain(l, line + " ");
    Regrouped(Indent, line, " ", l.newLine);
  }

  lemma Regrouped(a: string, b: string, c: string, d: string)
    ensures a + (b + c) + d == a + b + c + d
  {
  }

  /** The padded title is handed to `LogInfo` as a format and formatted a
      second time: an escaped placeholder in a title, which the first
      formatting turns into a real one, throws whatever the character. */
  lemma TitleFormattedTwice(l: FancyLoggerService, padLength: int, padChar: char)
    requires padLength >= 0
    ensures Text.Format("{{0}}", []) == Some("{0}")
    ensures l.PaddedOutput("{{0}}", [], padLength, padChar) == Throw(FormatException)
  {
    Text.FormatEscapedPlaceholder();
    Text.TrimOfTrimmed("{0}");
    var t := "{0}" + " ";
    var padded := Text.PadRightChar(t, padLength, padChar).value;
    assert padded[..|t|] == t;
    assert padded[0] == '{' && padded[1] == '0' && padded[2] == '}';
    Text.FormatMissingArgument(padded, []);
  }

  // ------------------------------------------------------- construction

  /** A logger built with every default and no sink of its own: prefix
      "LOG", headers 70 wide padded with '#', subheaders 60 wide padded with
      '=', the shared JSON options, and a new sink named by the prefix that
      holds the creation line. */
  method DefaultService(statics: FancyLoggerServiceStatics, foreign: Foreign, newLine: NewLine)
    returns (s: FancyLoggerService)
    ensures s.loggerPrefix == "LOG" && s.logger.category == "LOG"
    ensures s.headerLength == 70 && s.headerChar == '#'
    ensures s.subheaderLength == 60 && s.subheaderChar == '='
    ensures s.readJsonOptions == statics.defaultReadOptions
    ensures s.writeJsonOptions == statics.defaultWriteJsonOptions
    ensures s.logger.entries == [Entry(Information, "Logger created" + newLine)]
  {
    s := new FancyLoggerService(statics, None, DefaultLoggerPrefix, DefaultHeaderPaddingLength,
                                DefaultHeaderPaddingChar, DefaultSubheaderPaddingLength,
                                DefaultSubheaderPaddingChar, None, None, newLine, foreign);
  }
}
