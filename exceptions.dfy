/** The exception types the loggers tell apart, the first-match routing of
    `LogException`, and the warning texts the exception loggers compose.
    Both logger classes route and label in the same way; each writes the
    texts with its own `LogWarning`. */
module Exceptions {
  import opened Wrappers
  import Text
  import opened Characters

  datatype SocketError = ConnectionRefused | OtherSocketError(code: int)

  datatype WebExceptionStatus = NameResolutionFailure | OtherWebStatus(name: string)

  /** An exception object. Refit's `ApiException` (and its subclass
      `ValidationApiException`, `isValidation`) keeps the request's method
      (`None` when `RequestMessage` is null), the rendered `Uri` and the
      response `Content`; `JsonException` keeps its position, rendered
      `Path` included. Every other type is `Other`, named by `typeName`. */
  datatype Exception =
    | Api(message: string, inner: Option<Exception>, isValidation: bool,
          requestMethod: Option<string>, uri: string, content: Option<string>)
    | HttpRequest(message: string, inner: Option<Exception>)
    | Socket(message: string, inner: Option<Exception>, socketErrorCode: SocketError)
    | Web(message: string, inner: Option<Exception>, status: WebExceptionStatus)
    | Json(message: string, inner: Option<Exception>, lineNumber: Option<int>,
           bytePositionInLine: Option<int>, path: string)
    | Other(typeName: string, message: string, inner: Option<Exception>)

  /** The exceptions the modelled code raises itself. Their messages are the
      runtime's own texts, which vary between .NET versions; each is written
      in pieces short enough to check character by character. */
  const FormatException: Exception :=
    Other("FormatException", "Input string was not " + "in a correct format.", None)
  const NullReferenceException: Exception :=
    Other("NullReferenceException", "Object reference not set" + " to an instance of an object.", None)
  const ArgumentOutOfRangeException: Exception :=
    Other("ArgumentOutOfRangeException", "Specified argument " + "was out of the range " + "of valid values.", None)
  const ArgumentNullException: Exception :=
    Other("ArgumentNullException", "Value cannot be null. " + "(Parameter 'key')", None)
  const KeyNotFoundException: Exception :=
    Other("KeyNotFoundException", "The given key was not " + "present in the dictionary.", None)
  /** `new JsonException()`. */
  const EmptyJsonException: Exception :=
    Json("Exception of type 'System.Text.Json.JsonException' was thrown.", None, None, None, "")

  /** A runtime exception of the model: an `Other` with a message free of
      braces and no inner exception. */
  predicate IsRuntimeFault(e: Exception) {
    e.Other? && Text.NoBraces(e.message) && e.inner.None?
  }

  /** A text none of whose characters is a brace holds no brace. */
  lemma NoBracesByChars(s: string)
    requires forall i | 0 <= i < |s| :: s[i] != '{' && s[i] != '}'
    ensures Text.NoBraces(s)
  {
  }

  lemma FormatFault()
    ensures IsRuntimeFault(FormatException)
  {
    NoBracesByChars("Input string was not ");
    NoBracesByChars("in a correct format.");
  }

  lemma NullReferenceFault()
    ensures IsRuntimeFault(NullReferenceException)
  {
    NoBracesByChars("Object reference not set");
    NoBracesByChars(" to an instance of an object.");
  }

  lemma ArgumentOutOfRangeFault()
    ensures IsRuntimeFault(ArgumentOutOfRangeException)
  {
    NoBracesByChars("Specified argument ");
    NoBracesByChars("was out of the range ");
    NoBracesByChars("of valid values.");
  }

  lemma ArgumentNullFault()
    ensures IsRuntimeFault(ArgumentNullException)
  {
    NoBracesByChars("Value cannot be null. ");
    NoBracesByChars("(Parameter 'key')");
  }

  lemma KeyNotFoundFault()
    ensures IsRuntimeFault(KeyNotFoundException)
  {
    NoBracesByChars("The given key was not ");
    NoBracesByChars("present in the dictionary.");
  }

  /** The exceptions the model raises itself are all runtime faults. */
  lemma ConstantFaults()
    ensures IsRuntimeFault(FormatException) && IsRuntimeFault(NullReferenceException)
    ensures IsRuntimeFault(ArgumentOutOfRangeException) && IsRuntimeFault(ArgumentNullException)
    ensures IsRuntimeFault(KeyNotFoundException)
  {
    FormatFault();
    NullReferenceFault();
    ArgumentOutOfRangeFault();
    ArgumentNullFault();
    KeyNotFoundFault();
  }

  // ----------------------------------------------------------- routing

  /** The handlers `LogException` can pick. */
  datatype Handler = ApiHandler | HttpRequestHandler | JsonHandler | GeneralHandler

  /** The type patterns of the `switch`, in the order they are written. */
  datatype Pattern = ValidationApiPattern | ApiPattern | HttpRequestPattern | JsonPattern | DefaultPattern

  predicate Matches(p: Pattern, e: Exception) {
    match p
    case ValidationApiPattern => e.Api? && e.isValidation
    case ApiPattern => e.Api?
    case HttpRequestPattern => e.HttpRequest?
    case JsonPattern => e.Json?
    case DefaultPattern => true
  }

  /** The cases of the `switch` in `LogException`. */
  const SwitchCases: seq<(Pattern, Handler)> := [
    (ValidationApiPattern, ApiHandler),
    (ApiPattern, ApiHandler),
    (HttpRequestPattern, HttpRequestHandler),
    (JsonPattern, JsonHandler),
    (DefaultPattern, GeneralHandler)
  ]

  /** The handler of the first case whose pattern matches. */
  function FirstMatch(cases: seq<(Pattern, Handler)>, e: Exception, from: nat): Option<Handler>
    decreases |cases| - from
  {
    if from >= |cases| then None
    else if Matches(cases[from].0, e) then Some(cases[from].1)
    else FirstMatch(cases, e, from + 1)
  }

  function Route(e: Exception): Handler {
    FirstMatch(SwitchCases, e, 0).GetOr(GeneralHandler)
  }

  /** Every exception is routed, and each handler receives exactly the
      exceptions of its type: API exceptions (validation ones included) to
      the API handler, HTTP request exceptions to the HTTP handler, JSON
      exceptions to the JSON handler, anything else to the general one. */
  lemma RouteByType(e: Exception)
    ensures FirstMatch(SwitchCases, e, 0).Some?
    ensures Route(e) == ApiHandler <==> e.Api?
    ensures Route(e) == HttpRequestHandler <==> e.HttpRequest?
    ensures Route(e) == JsonHandler <==> e.Json?
    ensures Route(e) == GeneralHandler <==> !(e.Api? || e.HttpRequest? || e.Json?)
  {
    var c := SwitchCases;
    assert FirstMatch(c, e, 4) == Some(GeneralHandler);
    assert FirstMatch(c, e, 3) == if e.Json? then Some(JsonHandler) else Some(GeneralHandler);
  }

  // ------------------------------------------------------- HTTP labels

  datatype HttpStatusCode = ServiceUnavailable

  /** `HttpStatusCode.ToString()`. */
  function StatusName(s: HttpStatusCode): string {
    match s
    case ServiceUnavailable => "ServiceUnavailable"
  }

  /** The inner label and status `LogHttpRequestException` picks from the
      inner exception. */
  function HttpInnerCase(inner: Option<Exception>): (string, Option<HttpStatusCode>) {
    if inner.Some? && inner.value.Socket? && inner.value.socketErrorCode == ConnectionRefused then
      ("SOCKET EXCEPTION - ConnectionRefused", Some(ServiceUnavailable))
    else if inner.Some? && inner.value.Web? && inner.value.status == NameResolutionFailure then
      ("WEB EXCEPTION - NameResolutionFailure", Some(ServiceUnavailable))
    else ("INNER EXCEPTION", None)
  }

  /** The label followed directly by the status name, if any. */
  function HttpInnerLabel(inner: Option<Exception>): string {
    var (l, status) := HttpInnerCase(inner);
    l + (if status.Some? then StatusName(status.value) else "")
  }

  /** Connection refusal and name resolution failure are labelled as a
      service unavailable; any other inner exception, or none, gets the
      plain label without a status. */
  lemma HttpInnerLabelCases(inner: Option<Exception>)
    ensures inner.Some? && inner.value.Socket? && inner.value.socketErrorCode == ConnectionRefused
            ==> HttpInnerCase(inner) == ("SOCKET EXCEPTION - ConnectionRefused", Some(ServiceUnavailable))
    ensures inner.Some? && inner.value.Web? && inner.value.status == NameResolutionFailure
            ==> HttpInnerCase(inner) == ("WEB EXCEPTION - NameResolutionFailure", Some(ServiceUnavailable))
    ensures !(inner.Some? && inner.value.Socket? && inner.value.socketErrorCode == ConnectionRefused)
            && !(inner.Some? && inner.value.Web? && inner.value.status == NameResolutionFailure)
            ==> HttpInnerCase(inner) == ("INNER EXCEPTION", None) && HttpInnerLabel(inner) == "INNER EXCEPTION"
  {
  }

  // ------------------------------------------------------ warning texts

  /** The message of the inner exception, null when there is none. */
  function InnerMessage(e: Exception): Option<string> {
    if e.inner.Some? then Some(e.inner.value.message) else None
  }

  /** The formats `LogCommonException` hands to `LogWarning`: the outer
      line, then the indented inner line when the inner message is neither
      null nor white space. */
  function CommonWarnings(e: Exception, outerLabel: string, innerLabel: string, newLine: string): (w: seq<string>)
    ensures |w| == if Text.IsNullOrWhiteSpace(InnerMessage(e)) then 1 else 2
    ensures w[0] == outerLabel + ":  " + e.message + newLine
    ensures |w| == 2 ==> w[1] == Indent + innerLabel + ":  " + e.inner.value.message + newLine
  {
    var outer := outerLabel + ":  " + e.message + newLine;
    var innerMessage := InnerMessage(e);
    if Text.IsNullOrWhiteSpace(innerMessage) then [outer]
    else [outer, Indent + innerLabel + ":  " + innerMessage.value + newLine]
  }

  /** With no brace in the labels, the messages and the line end, the
      common warnings hold no brace; behind a prefix and ended by a second
      line end, each reads from left to right. */
  lemma CommonWarningsPlain(e: Exception, outerLabel: string, innerLabel: string, prefix: string, newLine: string)
    requires Text.NoBraces(outerLabel) && Text.NoBraces(e.message) && Text.NoBraces(newLine)
    requires e.inner.Some? ==> Text.NoBraces(innerLabel) && Text.NoBraces(e.inner.value.message)
    ensures var w := CommonWarnings(e, outerLabel, innerLabel, newLine);
            (forall i :: 0 <= i < |w| ==> Text.NoBraces(w[i]))
            && prefix + w[0] + newLine == prefix + outerLabel + ":  " + e.message + newLine + newLine
            && (|w| == 2 ==> prefix + w[1] + newLine
                             == prefix + Indent + innerLabel + ":  " + e.inner.value.message + newLine + newLine)
  {
    var w := CommonWarnings(e, outerLabel, innerLabel, newLine);
    assert Text.NoBraces(w[0]);
    assert |w| == 2 ==> Text.NoBraces(w[1]);
  }

  /** The two position lines of `LogJsonException`: the line is built
      from two numbers and never holds a brace; the path line holds one
      only when the path does. */
  function JsonPositionWarnings(e: Exception): (w: seq<string>)
    requires e.Json?
    ensures |w| == 2
    ensures Text.NoBraces(w[0])
    ensures Text.NoBraces(w[1]) <==> Text.NoBraces(e.path)
  {
    ["LINE:  " + Text.NullableIntToString(e.lineNumber) + Indent + "-" + Indent
       + Text.NullableIntToString(e.bytePositionInLine),
     "PATH:  " + e.path]
  }

  /** The operation line of `LogApiException`; reading the method of a null
      request throws. */
  function OperationWarning(e: Exception, newLine: string): (w: Result<string, Exception>)
    requires e.Api?
    ensures w.Success? <==> e.requestMethod.Some?
    ensures w.Failure? ==> w.error == NullReferenceException
  {
    if e.requestMethod.None? then Failure(NullReferenceException)
    else Success("OPERATION:  " + e.requestMethod.value + " - " + e.uri + newLine)
  }

  /** The operation warning behind a prefix and ended by a second line
      end, regrouped from left to right. */
  lemma OperationWarningLine(prefix: string, verb: string, uri: string, newLine: string)
    ensures prefix + ("OPERATION:  " + verb + " - " + uri + newLine) + newLine
            == prefix + "OPERATION:  " + verb + " - " + uri + newLine + newLine
  {
  }

  /** The outer label of each handler. */
  function OuterLabel(h: Handler): string {
    match h
    case ApiHandler => "API EXCEPTION"
    case HttpRequestHandler => "HTTP REQUEST EXCEPTION"
    case JsonHandler => "JSON EXCEPTION"
    case GeneralHandler => "EXCEPTION"
  }
}
