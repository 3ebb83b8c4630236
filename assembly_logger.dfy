/** `XamarinFiles.FancyLogger.Extensions.AssemblyLogger`: a report of the
    organisation's assemblies written through a `FancyLogger`. Each `Log*`
    method is specified by a function giving what it appends to the
    logger's sink and the exception, if any, that escapes; the report stops
    at the first one. */
module AssemblyLogging {
  import opened Wrappers
  import Text
  import opened Characters
  import opened Exceptions
  import opened Sinks
  import opened AssemblyRecords
  import opened FancyLogging

  const DefaultShowCultureInfo: bool := true

  class AssemblyLogger {
    const fancyLogger: FancyLogger
    /** The location of the executing assembly. */
    const assemblyPath: string
    /** The directory six levels above it, which `GetAncestorPath` computes. */
    const ancestorPath: string
    /** `Path.GetDirectoryName`. */
    const directoryName: string -> Option<string>
    var showCultureInfo: bool

    constructor(fancyLogger: FancyLogger, assemblyPath: string, ancestorPath: string,
                directoryName: string -> Option<string>)
      ensures this.fancyLogger == fancyLogger && this.assemblyPath == assemblyPath
      ensures this.ancestorPath == ancestorPath && this.directoryName == directoryName
      ensures !showCultureInfo
    {
      this.fancyLogger := fancyLogger;
      this.assemblyPath := assemblyPath;
      this.ancestorPath := ancestorPath;
      this.directoryName := directoryName;
      showCultureInfo := false;
    }

    // ------------------------------------------------------------- lines

    /** `LogName`: the label and the simple name, as an information line;
        the text is a format, so a brace in either can throw. */
    function NameOutput(assemblyLabel: string, n: AssemblyName, addIndent: bool, newLineAfter: bool): (r: Emission)
      ensures ThrowsFaultsOnly(r)
    {
      fancyLogger.InfoOutput(assemblyLabel + ": " + n.name.GetOr(""), addIndent, newLineAfter, [])
    }

    method LogName(assemblyLabel: string, n: AssemblyName, addIndent: bool, newLineAfter: bool)
      returns (thrown: Option<Exception>)
      modifies fancyLogger.logger
      ensures var o := NameOutput(assemblyLabel, n, addIndent, newLineAfter);
              fancyLogger.logger.entries == old(fancyLogger.logger.entries) + o.entries && thrown == o.thrown
    {
      thrown := fancyLogger.LogInfo(assemblyLabel + ": " + n.name.GetOr(""), addIndent, newLineAfter, []);
    }

    /** `LogVersion`: a scalar line, nothing without a version. */
    function VersionOutput(n: AssemblyName, addIndent: bool, newLineAfter: bool): (r: Emission)
      ensures r.thrown.None?
      ensures n.version.None? <==> r.entries == []
    {
      if n.version.None? then Nothing
      else fancyLogger.ScalarOutput("Version" + Indent, n.version.value, addIndent, newLineAfter)
    }

    method LogVersion(n: AssemblyName, addIndent: bool, newLineAfter: bool)
      modifies fancyLogger.logger
      ensures fancyLogger.logger.entries == old(fancyLogger.logger.entries) + VersionOutput(n, addIndent, newLineAfter).entries
    {
      if n.version.None? {
        return;
      }
      fancyLogger.LogScalar("Version" + Indent, n.version.value, addIndent, newLineAfter);
    }

    /** `LogTargetFramework`: a scalar line, nothing for a null or empty
        framework name. */
    function FrameworkOutput(a: Assembly, addIndent: bool, newLineAfter: bool): (r: Emission)
      ensures r.thrown.None?
      ensures Text.IsNullOrEmpty(a.frameworkName) <==> r.entries == []
    {
      if Text.IsNullOrEmpty(a.frameworkName) then Nothing
      else fancyLogger.ScalarOutput("Framework", a.frameworkName.value, addIndent, newLineAfter)
    }

    method LogTargetFramework(a: Assembly, addIndent: bool, newLineAfter: bool)
      modifies fancyLogger.logger
      ensures fancyLogger.logger.entries
              == old(fancyLogger.logger.entries) + FrameworkOutput(a, addIndent, newLineAfter).entries
    {
      if Text.IsNullOrEmpty(a.frameworkName) {
        return;
      }
      fancyLogger.LogScalar("Framework", a.frameworkName.value, addIndent, newLineAfter);
    }

    /** `LogCultureInfo`: nothing when cultures are not shown or there is
        none; the invariant culture is shown as "neutral", any other by its
        display name. */
    function CultureOutput(show: bool, c: Option<Culture>, addIndent: bool, newLineAfter: bool): (r: Emission)
      ensures r.thrown.None?
      ensures !show || c.None? <==> r.entries == []
      ensures show && c == Some(InvariantCulture)
              ==> r == fancyLogger.ScalarOutput("Culture" + Indent, "neutral", addIndent, newLineAfter)
    {
      if !show || c.None? then Nothing
      else
        var cultureName := if c.value == InvariantCulture then "neutral" else c.value.displayName;
        fancyLogger.ScalarOutput("Culture" + Indent, cultureName, addIndent, newLineAfter)
    }

    method LogCultureInfo(c: Option<Culture>, addIndent: bool, newLineAfter: bool)
      modifies fancyLogger.logger
      ensures fancyLogger.logger.entries
              == old(fancyLogger.logger.entries) + CultureOutput(showCultureInfo, c, addIndent, newLineAfter).entries
    {
      if !showCultureInfo || c.None? {
        return;
      }
      var cultureName := if c.value == InvariantCulture then "neutral" else c.value.displayName;
      fancyLogger.LogScalar("Culture" + Indent, cultureName, addIndent, newLineAfter);
    }

    /** The directory of a location relative to the ancestor path; a
        location shorter than that path cannot be cut and throws. */
    function RelativeDirectory(location: string): (r: Result<string, Exception>)
      ensures r.Failure? <==> |location| < |ancestorPath|
      ensures r.Failure? ==> r.error == ArgumentOutOfRangeException
    {
      if |location| < |ancestorPath| then Failure(ArgumentOutOfRangeException)
      else Success(directoryName(location[|ancestorPath|..]).GetOr(""))
    }

    /** `LogPublicKeyTokenOrLocation`: the token when the name has one, else
        the directory of a location that is not null or empty, else a
        warning. */
    function TokenOrLocationOutput(n: AssemblyName, location: Option<string>, addIndent: bool, newLineAfter: bool)
      : (r: Emission)
      ensures ThrowsFaultsOnly(r)
    {
      ConstantFaults();
      var publicKeyToken := TokenText(n.publicKeyToken);
      if publicKeyToken != "" then fancyLogger.ScalarOutput("PublicKeyToken", publicKeyToken, addIndent, newLineAfter)
      else if !Text.IsNullOrEmpty(location) then
        match RelativeDirectory(location.value)
        case Failure(e) => Throw(e)
        case Success(relativePath) => fancyLogger.ScalarOutput("Location", relativePath, addIndent, newLineAfter)
      else fancyLogger.WarningOutput("No Public Key Token or Location", addIndent, newLineAfter, [])
    }

    method LogPublicKeyTokenOrLocation(n: AssemblyName, location: Option<string>, addIndent: bool, newLineAfter: bool)
      returns (thrown: Option<Exception>)
      modifies fancyLogger.logger
      ensures var o := TokenOrLocationOutput(n, location, addIndent, newLineAfter);
              fancyLogger.logger.entries == old(fancyLogger.logger.entries) + o.entries && thrown == o.thrown
    {
      var publicKeyToken := GetPublicKeyToken(n.publicKeyToken);
      thrown := None;
      if publicKeyToken != "" {
        fancyLogger.LogScalar("PublicKeyToken", publicKeyToken, addIndent, newLineAfter);
      } else if !Text.IsNullOrEmpty(location) {
        var relativePath := RelativeDirectory(location.value);
        if relativePath.Failure? {
          return Some(relativePath.error);
        }
        fancyLogger.LogScalar("Location", relativePath.value, addIndent, newLineAfter);
      } else {
        thrown := fancyLogger.LogWarning("No Public Key Token or Location", addIndent, newLineAfter, []);
      }
    }

    // -------------------------------------------------------- assemblies

    /** The lines of `LogAssembly` that cannot throw: the version, the
        framework and the culture. */
    function AssemblyDetailsOutput(show: bool, a: Assembly): (r: Emission)
      ensures r.thrown.None?
    {
      VersionOutput(a.assemblyName, false, false)
        .Then(FrameworkOutput(a, false, false))
        .Then(CultureOutput(show, a.assemblyName.culture, false, false))
    }

    method LogAssemblyDetails(a: Assembly)
      modifies fancyLogger.logger
      ensures fancyLogger.logger.entries
              == old(fancyLogger.logger.entries) + AssemblyDetailsOutput(showCultureInfo, a).entries
    {
      ghost var version := VersionOutput(a.assemblyName, false, false);
      ghost var framework := FrameworkOutput(a, false, false);
      LogVersion(a.assemblyName, false, false);
      LogTargetFramework(a, false, false);
      AppendedTwice(old(fancyLogger.logger.entries), version.entries, framework.entries);
      LogCultureInfo(a.assemblyName.culture, false, false);
    }

    /** The lines of `LogAssembly` after the name. */
    function AssemblyBodyOutput(show: bool, a: Assembly): (r: Emission)
      ensures ThrowsFaultsOnly(r)
    {
      AssemblyDetailsOutput(show, a).Then(TokenOrLocationOutput(a.assemblyName, Some(a.location), false, true))
    }

    method LogAssemblyBody(a: Assembly) returns (thrown: Option<Exception>)
      modifies fancyLogger.logger
      ensures var o := AssemblyBodyOutput(showCultureInfo, a);
              fancyLogger.logger.entries == old(fancyLogger.logger.entries) + o.entries && thrown == o.thrown
    {
      ghost var details := AssemblyDetailsOutput(showCultureInfo, a);
      ghost var token := TokenOrLocationOutput(a.assemblyName, Some(a.location), false, true);
      LogAssemblyDetails(a);
      thrown := LogPublicKeyTokenOrLocation(a.assemblyName, Some(a.location), false, true);
      AppendedTwice(old(fancyLogger.logger.entries), details.entries, token.entries);
    }

    /** `LogAssembly`: nothing for a null assembly; otherwise the name, the
        version, the framework, the culture and the token or location. */
    function AssemblyOutput(show: bool, assemblyNameLabel: string, a: Option<Assembly>): (r: Emission)
      ensures ThrowsFaultsOnly(r)
      ensures a.None? ==> r == Nothing
    {
      if a.None? then Nothing
      else
        NameOutput(assemblyNameLabel, a.value.assemblyName, false, true).Then(AssemblyBodyOutput(show, a.value))
    }

    method LogAssembly(assemblyNameLabel: string, a: Option<Assembly>) returns (thrown: Option<Exception>)
      modifies fancyLogger.logger
      ensures var o := AssemblyOutput(showCultureInfo, assemblyNameLabel, a);
              fancyLogger.logger.entries == old(fancyLogger.logger.entries) + o.entries && thrown == o.thrown
    {
      if a.None? {
        return None;
      }
      ghost var name := NameOutput(assemblyNameLabel, a.value.assemblyName, false, true);
      ghost var body := AssemblyBodyOutput(showCultureInfo, a.value);
      thrown := LogName(assemblyNameLabel, a.value.assemblyName, false, true);
      if thrown.Some? {
        return;
      }
      thrown := LogAssemblyBody(a.value);
      AppendedTwice(old(fancyLogger.logger.entries), name.entries, body.entries);
    }

    /** The lines of `LogAssemblyName` that cannot throw: the version and
        the culture, indented. */
    function NameDetailsOutput(show: bool, n: AssemblyName): (r: Emission)
      ensures r.thrown.None?
    {
      VersionOutput(n, true, false).Then(CultureOutput(show, n.culture, true, false))
    }

    method LogNameDetails(n: AssemblyName)
      modifies fancyLogger.logger
      ensures fancyLogger.logger.entries
              == old(fancyLogger.logger.entries) + NameDetailsOutput(showCultureInfo, n).entries
    {
      LogVersion(n, true, false);
      LogCultureInfo(n.culture, true, false);
    }

    /** The lines of `LogAssemblyName` after the name. */
    function NameBodyOutput(show: bool, n: AssemblyName): (r: Emission)
      ensures ThrowsFaultsOnly(r)
    {
      NameDetailsOutput(show, n).Then(TokenOrLocationOutput(n, None, true, true))
    }

    method LogNameBody(n: AssemblyName) returns (thrown: Option<Exception>)
      modifies fancyLogger.logger
      ensures var o := NameBodyOutput(showCultureInfo, n);
              fancyLogger.logger.entries == old(fancyLogger.logger.entries) + o.entries && thrown == o.thrown
    {
      ghost var details := NameDetailsOutput(showCultureInfo, n);
      ghost var token := TokenOrLocationOutput(n, None, true, true);
      LogNameDetails(n);
      thrown := LogPublicKeyTokenOrLocation(n, None, true, true);
      AppendedTwice(old(fancyLogger.logger.entries), details.entries, token.entries);
    }

    /** `LogAssemblyName`: nothing for a null name; otherwise, indented, the
        name, the version, the culture and the token, or a warning, since no
        location is passed. */
    function AssemblyNameOutput(show: bool, assemblyNameLabel: string, n: Option<AssemblyName>): (r: Emission)
      ensures ThrowsFaultsOnly(r)
      ensures n.None? ==> r == Nothing
    {
      if n.None? then Nothing
      else
        NameOutput(assemblyNameLabel, n.value, true, true).Then(NameBodyOutput(show, n.value))
    }

    method LogAssemblyName(assemblyNameLabel: string, n: Option<AssemblyName>) returns (thrown: Option<Exception>)
      modifies fancyLogger.logger
      ensures var o := AssemblyNameOutput(showCultureInfo, assemblyNameLabel, n);
              fancyLogger.logger.entries == old(fancyLogger.logger.entries) + o.entries && thrown == o.thrown
    {
      if n.None? {
        return None;
      }
      ghost var name := NameOutput(assemblyNameLabel, n.value, true, true);
      ghost var body := NameBodyOutput(showCultureInfo, n.value);
      thrown := LogName(assemblyNameLabel, n.value, true, true);
      if thrown.Some? {
        return;
      }
      thrown := LogNameBody(n.value);
      AppendedTwice(old(fancyLogger.logger.entries), name.entries, body.entries);
    }

    method LogExecutingAssembly(a: Option<Assembly>) returns (thrown: Option<Exception>)
      modifies fancyLogger.logger
      ensures var o := AssemblyOutput(showCultureInfo, "Executing Assembly", a);
              fancyLogger.logger.entries == old(fancyLogger.logger.entries) + o.entries && thrown == o.thrown
    {
      thrown := LogAssembly("Executing Assembly", a);
    }

    method LogDomainAssembly(a: Option<Assembly>) returns (thrown: Option<Exception>)
      modifies fancyLogger.logger
      ensures var o := AssemblyOutput(showCultureInfo, "Domain Assembly", a);
              fancyLogger.logger.entries == old(fancyLogger.logger.entries) + o.entries && thrown == o.thrown
    {
      thrown := LogAssembly("Domain Assembly", a);
    }

    method LogReferenceAssembly(n: Option<AssemblyName>) returns (thrown: Option<Exception>)
      modifies fancyLogger.logger
      ensures var o := AssemblyNameOutput(showCultureInfo, "Reference Assembly", n);
              fancyLogger.logger.entries == old(fancyLogger.logger.entries) + o.entries && thrown == o.thrown
    {
      thrown := LogAssemblyName("Reference Assembly", n);
    }

    // ------------------------------------------------------------ report

    /** One `LogReferenceAssembly` call per referenced name. */
    function ReferenceCalls(show: bool, names: seq<AssemblyName>): (r: seq<Emission>)
      ensures |r| == |names|
    {
      seq(|names|, k requires 0 <= k < |names| => AssemblyNameOutput(show, "Reference Assembly", Some(names[k])))
    }

    /** Each referenced name in turn, stopping at the first that throws. */
    function ReferencesOutput(show: bool, names: seq<AssemblyName>): (r: Emission)
      ensures ThrowsFaultsOnly(r)
    {
      InTurnFaultsOnly(ReferenceCalls(show, names));
      InTurn(ReferenceCalls(show, names))
    }

    /** A domain assembly, then its kept references in name order. */
    function DomainOutput(show: bool, a: Assembly): (r: Emission)
      ensures ThrowsFaultsOnly(r)
    {
      AssemblyOutput(show, "Domain Assembly", Some(a)).Then(ReferencesOutput(show, ReferenceNames(a.references)))
    }

    /** One pass of the outer loop per domain assembly. */
    function DomainCalls(show: bool, domain: seq<Assembly>): (r: seq<Emission>)
      ensures |r| == |domain|
    {
      seq(|domain|, k requires 0 <= k < |domain| => DomainOutput(show, domain[k]))
    }

    /** Each domain assembly in turn, stopping at the first that throws. */
    function DomainsOutput(show: bool, domain: seq<Assembly>): (r: Emission)
      ensures ThrowsFaultsOnly(r)
    {
      InTurnFaultsOnly(DomainCalls(show, domain));
      InTurn(DomainCalls(show, domain))
    }

    /** `LogAssemblies`: the section line, the executing assembly, then the
        kept domain assemblies in name order, each followed by its kept
        references. */
    function AssembliesOutput(show: bool, executing: Assembly, all: seq<Assembly>): (r: Emission)
      ensures ThrowsFaultsOnly(r)
    {
      fancyLogger.TitledOutput(OrganizationPrefix + " Assemblies", [], fancyLogger.sectionLinesPadLength,
                               fancyLogger.sectionLinesPadString)
        .Then(AssemblyOutput(show, "Executing Assembly", Some(executing)))
        .Then(DomainsOutput(show, DomainAssemblies(all, assemblyPath)))
    }

    /** The loop over the referenced names of one domain assembly. */
    method LogReferences(names: seq<AssemblyName>) returns (thrown: Option<Exception>)
      modifies fancyLogger.logger
      ensures var o := ReferencesOutput(showCultureInfo, names);
              fancyLogger.logger.entries == old(fancyLogger.logger.entries) + o.entries && thrown == o.thrown
    {
      thrown := None;
      ghost var calls := ReferenceCalls(showCultureInfo, names);
      ghost var done := Nothing;
      ThenNothing(InTurn(calls));
      assert calls[0..] == calls;
      var i := 0;
      while i < |names|
        invariant 0 <= i <= |names|
        invariant fancyLogger.logger.entries == old(fancyLogger.logger.entries) + done.entries
        invariant thrown.None? && done.thrown.None?
        invariant done.Then(InTurn(calls[i..])) == InTurn(calls)
      {
        InTurnStep(calls, i);
        Advance(done, calls[i], InTurn(calls[i + 1..]), InTurn(calls));
        AppendedTwice(old(fancyLogger.logger.entries), done.entries, calls[i].entries);
        thrown := LogReferenceAssembly(Some(names[i]));
        done := done.Then(calls[i]);
        if thrown.Some? {
          return;
        }
        i := i + 1;
      }
      ThenNothing(done);
    }

    /** One pass of the outer loop: the domain assembly and its references. */
    method LogDomain(a: Assembly) returns (thrown: Option<Exception>)
      modifies fancyLogger.logger
      ensures var o := DomainOutput(showCultureInfo, a);
              fancyLogger.logger.entries == old(fancyLogger.logger.entries) + o.entries && thrown == o.thrown
    {
      ghost var head := AssemblyOutput(showCultureInfo, "Domain Assembly", Some(a));
      thrown := LogDomainAssembly(Some(a));
      if thrown.Some? {
        return;
      }
      var referenceAssemblyNames := ReferenceNames(a.references);
      ghost var references := ReferencesOutput(showCultureInfo, referenceAssemblyNames);
      thrown := LogReferences(referenceAssemblyNames);
      AppendedTwice(old(fancyLogger.logger.entries), head.entries, references.entries);
    }

    /** The outer loop: each domain assembly in turn, stopping at the first
        that throws. */
    method LogDomains(domainAssemblies: seq<Assembly>) returns (thrown: Option<Exception>)
      modifies fancyLogger.logger
      ensures var o := DomainsOutput(showCultureInfo, domainAssemblies);
              fancyLogger.logger.entries == old(fancyLogger.logger.entries) + o.entries && thrown == o.thrown
    {
      thrown := None;
      ghost var calls := DomainCalls(showCultureInfo, domainAssemblies);
      ghost var done := Nothing;
      ThenNothing(InTurn(calls));
      assert calls[0..] == calls;
      var i := 0;
      while i < |domainAssemblies|
        invariant 0 <= i <= |domainAssemblies|
        invariant fancyLogger.logger.entries == old(fancyLogger.logger.entries) + done.entries
        invariant thrown.None? && done.thrown.None?
        invariant done.Then(InTurn(calls[i..])) == InTurn(calls)
      {
        InTurnStep(calls, i);
        Advance(done, calls[i], InTurn(calls[i + 1..]), InTurn(calls));
        AppendedTwice(old(fancyLogger.logger.entries), done.entries, calls[i].entries);
        thrown := LogDomain(domainAssemblies[i]);
        done := done.Then(calls[i]);
        if thrown.Some? {
          return;
        }
        i := i + 1;
      }
      ThenNothing(done);
    }

    /** Remembers whether cultures are shown, then writes the report. */
    method LogAssemblies(show: bool, executing: Assembly, all: seq<Assembly>) returns (thrown: Option<Exception>)
      modifies this, fancyLogger.logger
      ensures showCultureInfo == show
      ensures var o := AssembliesOutput(show, executing, all);
              fancyLogger.logger.entries == old(fancyLogger.logger.entries) + o.entries && thrown == o.thrown
    {
      showCultureInfo := show;
      ghost var section := fancyLogger.TitledOutput(OrganizationPrefix + " Assemblies", [],
                                                    fancyLogger.sectionLinesPadLength,
                                                    fancyLogger.sectionLinesPadString);
      ghost var executingOutput := AssemblyOutput(show, "Executing Assembly", Some(executing));
      var domainAssemblies := DomainAssemblies(all, assemblyPath);
      ghost var domains := DomainsOutput(show, domainAssemblies);
      ThenAssociative(section, executingOutput, domains);
      thrown := fancyLogger.LogSection(OrganizationPrefix + " Assemblies", []);
      if thrown.Some? {
        return;
      }
      thrown := LogExecutingAssembly(Some(executing));
      if thrown.Some? {
        AppendedTwice(old(fancyLogger.logger.entries), section.entries, executingOutput.entries);
        return;
      }
      thrown := LogDomains(domainAssemblies);
      AppendedInTurn(old(fancyLogger.logger.entries), section.entries, executingOutput.entries, domains.entries);
    }
  }
}
