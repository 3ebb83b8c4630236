/** `XamarinFiles.FancyLogger.Options.FancyLoggerOptions`: the same settable
    record in its own namespace, built from the `LinePrefix` and
    `LinePadding` records of the parent namespace. */
module Options {
  import opened LoggerOptions

  class FancyLoggerOptions {
    var allLines: LinePrefix
    var longDividerLines: LinePadding
    var shortDividerLines: LinePadding
    var sectionLines: LinePadding
    var subsectionLines: LinePadding
    var headerLines: LinePadding
    var footerLines: LinePadding

    predicate HasDefaults()
      reads this, allLines, longDividerLines, shortDividerLines, sectionLines,
            subsectionLines, headerLines, footerLines
    {
      allLines.prefixString == "LOG" && allLines.padLength == 0 && allLines.padString == " "
      && longDividerLines.padLength == 70 && longDividerLines.padString == "-"
      && shortDividerLines.padLength == 30 && shortDividerLines.padString == "-"
      && sectionLines.padLength == 60 && sectionLines.padString == "#"
      && subsectionLines.padLength == 50 && subsectionLines.padString == "-"
      && headerLines.padLength == 40 && headerLines.padString == "\\/"
      && footerLines.padLength == 40 && footerLines.padString == "/\\"
    }

    constructor()
      ensures fresh(allLines) && fresh(longDividerLines) && fresh(shortDividerLines)
      ensures fresh(sectionLines) && fresh(subsectionLines) && fresh(headerLines) && fresh(footerLines)
      ensures HasDefaults()
    {
      allLines := new LinePrefix("LOG", 0, " ");
      longDividerLines := new LinePadding(70, "-");
      shortDividerLines := new LinePadding(30, "-");
      sectionLines := new LinePadding(60, "#");
      subsectionLines := new LinePadding(50, "-");
      headerLines := new LinePadding(40, "\\/");
      footerLines := new LinePadding(40, "/\\");
    }
  }
}
