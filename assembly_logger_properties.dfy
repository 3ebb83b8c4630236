/** What the assembly report promises about its lines: which of the
    token, location and warning lines appears, when a line is left out, and
    which exceptions can stop the report. */
module AssemblyLoggerProperties {
  import opened Wrappers
  import Text
  import opened Exceptions
  import opened Sinks
  import opened AssemblyRecords
  import opened Characters
  import opened AssemblyLogging
  import AssemblyServiceLogging

  const NoTokenWarning: string := "No Public Key Token or Location"

  lemma WarningFormats(args: seq<string>)
    ensures Text.Format(NoTokenWarning, args) == Some(NoTokenWarning)
  {
    NoBracesByChars(NoTokenWarning);
    Text.FormatWithoutBraces(NoTokenWarning, args);
  }

  /** 1 if `b` holds, else 0. */
  function Count(b: bool): (r: nat)
    ensures r <= 1 && (r == 1 <==> b)
  {
    if b then 1 else 0
  }

  /** Exactly one of the token, the location and the warning is written;
      only cutting the ancestor path off a shorter location throws. */
  lemma TokenOrLocationLine(l: AssemblyLogger, n: AssemblyName, location: Option<string>, addIndent: bool,
                            newLineAfter: bool)
    ensures var r := l.TokenOrLocationOutput(n, location, addIndent, newLineAfter);
            (r.thrown.Some? <==> TokenText(n.publicKeyToken) == "" && !Text.IsNullOrEmpty(location)
                                 && |location.value| < |l.ancestorPath|)
            && (r.thrown.Some? ==> r == Throw(ArgumentOutOfRangeException))
            && (r.thrown.None? ==> |r.entries| == 1)
            && (r.thrown.None? ==> (r.entries[0].level == Warning
                                    <==> TokenText(n.publicKeyToken) == "" && Text.IsNullOrEmpty(location)))
            && (r.thrown.None? && TokenText(n.publicKeyToken) != "" ==> r.entries[0].level == Trace)
  {
    WarningFormats([]);
  }

  /** The same holds for `AssemblyLoggerService`: exactly one of the
      token, the location and the warning is written, and only cutting the
      ancestor path off a shorter location throws. */
  lemma ServiceTokenOrLocationLine(l: AssemblyServiceLogging.AssemblyLoggerService, n: AssemblyName,
                                   location: Option<string>, addIndent: bool, newLineAfter: bool)
    ensures var r := l.TokenOrLocationOutput(n, location, addIndent, newLineAfter);
            (r.thrown.Some? <==> TokenText(n.publicKeyToken) == "" && !Text.IsNullOrEmpty(location)
                                 && |location.value| < |l.ancestorPath|)
            && (r.thrown.Some? ==> r == Throw(ArgumentOutOfRangeException))
            && (r.thrown.None? ==> |r.entries| == 1)
            && (r.thrown.None? ==> (r.entries[0].level == Warning
                                    <==> TokenText(n.publicKeyToken) == "" && Text.IsNullOrEmpty(location)))
            && (r.thrown.None? && TokenText(n.publicKeyToken) != "" ==> r.entries[0].level == Trace)
  {
    WarningFormats([]);
  }

  /** A referenced name has no location, so where it has no token the
      warning is written, and the line never throws. */
  lemma ReferenceTokenOrWarning(l: AssemblyLogger, n: AssemblyName, addIndent: bool, newLineAfter: bool)
    ensures var r := l.TokenOrLocationOutput(n, None, addIndent, newLineAfter);
            r.thrown.None? && |r.entries| == 1
            && r.entries[0].level == (if TokenText(n.publicKeyToken) == "" then Warning else Trace)
  {
    TokenOrLocationLine(l, n, None, addIndent, newLineAfter);
  }

  /** An assembly is reported in two to five lines: the name and the token
      or location always, the version, the framework and the culture when
      known and shown. It stops only on a brace in the name line or on a
      location shorter than the ancestor path. */
  lemma {:induction false} AssemblyLines(l: AssemblyLogger, show: bool, assemblyNameLabel: string, a: Assembly)
    ensures var r := l.AssemblyOutput(show, assemblyNameLabel, Some(a));
            var n := a.assemblyName;
            var nameFails := Text.Format(assemblyNameLabel + ": " + n.name.GetOr(""), []).None?;
            var locationFails := TokenText(n.publicKeyToken) == "" && a.location != ""
                                 && |a.location| < |l.ancestorPath|;
            (r.thrown.Some? <==> nameFails || locationFails)
            && (nameFails ==> r == Throw(FormatException))
            && (!nameFails && locationFails ==> r.thrown == Some(ArgumentOutOfRangeException))
            && (r.thrown.None? ==> |r.entries| == 2 + Count(n.version.Some?) + Count(!Text.IsNullOrEmpty(a.frameworkName))
                                                    + Count(show && n.culture.Some?))
  {
    var n := a.assemblyName;
    var name := l.NameOutput(assemblyNameLabel, n, false, true);
    var details := l.AssemblyDetailsOutput(show, a);
    var version := l.VersionOutput(n, false, false);
    var framework := l.FrameworkOutput(a, false, false);
    var culture := l.CultureOutput(show, n.culture, false, false);
    TokenOrLocationLine(l, n, Some(a.location), false, true);
    assert |version.entries| == Count(n.version.Some?);
    assert |framework.entries| == Count(!Text.IsNullOrEmpty(a.frameworkName));
    assert |culture.entries| == Count(show && n.culture.Some?);
    assert |details.entries| == |version.entries| + |framework.entries| + |culture.entries|;
  }

  /** A referenced name is reported in two to four lines: the name and the
      token or warning always, the version and the culture when known and
      shown. Only a brace in the name line stops it. */
  lemma {:induction false} ReferenceLines(l: AssemblyLogger, show: bool, assemblyNameLabel: string, n: AssemblyName)
    ensures var r := l.AssemblyNameOutput(show, assemblyNameLabel, Some(n));
            var nameFails := Text.Format(assemblyNameLabel + ": " + n.name.GetOr(""), []).None?;
            (r.thrown.Some? <==> nameFails)
            && (nameFails ==> r == Throw(FormatException))
            && (r.thrown.None? ==> |r.entries| == 2 + Count(n.version.Some?) + Count(show && n.culture.Some?))
  {
    var details := l.NameDetailsOutput(show, n);
    var version := l.VersionOutput(n, true, false);
    var culture := l.CultureOutput(show, n.culture, true, false);
    ReferenceTokenOrWarning(l, n, true, true);
    assert |version.entries| == Count(n.version.Some?);
    assert |culture.entries| == Count(show && n.culture.Some?);
    assert |details.entries| == |version.entries| + |culture.entries|;
  }

  /** The references of a domain assembly can only stop the report with a
      FormatException: the location's ArgumentOutOfRangeException cannot
      arise there. */
  lemma {:induction false} ReferencesThrowFormatOnly(l: AssemblyLogger, show: bool, names: seq<AssemblyName>)
    ensures var r := l.ReferencesOutput(show, names);
            r.thrown.Some? ==> r.thrown == Some(FormatException)
  {
    var calls := l.ReferenceCalls(show, names);
    forall k | 0 <= k < |calls|
      ensures calls[k].thrown.Some? ==> calls[k].thrown == Some(FormatException)
    {
      ReferenceLines(l, show, "Reference Assembly", names[k]);
    }
    InTurnThrowsOneOf(calls, FormatException);
  }

  /** Calls in turn throw only what one of them throws. */
  lemma {:induction false} InTurnThrowsOneOf(calls: seq<Emission>, e: Exception)
    requires forall k | 0 <= k < |calls| :: calls[k].thrown.Some? ==> calls[k].thrown == Some(e)
    ensures InTurn(calls).thrown.Some? ==> InTurn(calls).thrown == Some(e)
  {
    if calls != [] {
      assert calls[0].thrown.Some? ==> calls[0].thrown == Some(e);
      forall k | 0 <= k < |calls[1..]|
        ensures calls[1..][k].thrown.Some? ==> calls[1..][k].thrown == Some(e)
      {
        assert calls[1..][k] == calls[k + 1];
      }
      InTurnThrowsOneOf(calls[1..], e);
    }
  }

  /** With cultures hidden no culture line is written, and the invariant
      culture is written as "neutral". */
  lemma CultureShownOnlyWhenAsked(l: AssemblyLogger, c: Option<Culture>, addIndent: bool, newLineAfter: bool)
    ensures l.CultureOutput(false, c, addIndent, newLineAfter) == Nothing
    ensures c.Some? ==> |l.CultureOutput(true, c, addIndent, newLineAfter).entries| == 1
    ensures l.CultureOutput(true, Some(InvariantCulture), addIndent, newLineAfter)
            == l.fancyLogger.ScalarOutput("Culture" + Indent, "neutral", addIndent, newLineAfter)
  {
  }
}
