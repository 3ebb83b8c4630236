/** `XamarinFiles.FancyLogger.FancyLoggerOptions` with `LinePrefix` and
    `LinePadding`: settable records for the length and pattern of each kind
    of structural line and for the logger's prefix. */
module LoggerOptions {
  /** A line kind: the width to pad to and the pattern to pad with. */
  class LinePadding {
    var padLength: int
    var padString: string

    constructor(padLength: int, padString: string)
      ensures this.padLength == padLength && this.padString == padString
    {
      this.padLength := padLength;
      this.padString := padString;
    }
  }

  /** The padding of the logger's category name, and the name itself. */
  class LinePrefix {
    var padLength: int
    var padString: string
    var prefixString: string

    constructor(prefixString: string, padLength: int, padString: string)
      ensures this.prefixString == prefixString
      ensures this.padLength == padLength && this.padString == padString
    {
      this.prefixString := prefixString;
      this.padLength := padLength;
      this.padString := padString;
    }
  }

  class FancyLoggerOptions {
    var allLines: LinePrefix
    var longDividerLines: LinePadding
    var shortDividerLines: LinePadding
    var sectionLines: LinePadding
    var subsectionLines: LinePadding
    var headerLines: LinePadding
    var footerLines: LinePadding

    /** The six padding records are six different objects. */
    predicate Separate()
      reads this
    {
      longDividerLines != shortDividerLines && longDividerLines != sectionLines
      && longDividerLines != subsectionLines && longDividerLines != headerLines
      && longDividerLines != footerLines && shortDividerLines != sectionLines
      && shortDividerLines != subsectionLines && shortDividerLines != headerLines
      && shortDividerLines != footerLines && sectionLines != subsectionLines
      && sectionLines != headerLines && sectionLines != footerLines
      && subsectionLines != headerLines && subsectionLines != footerLines
      && headerLines != footerLines
    }

    /** Each record holds its declared defaults. */
    predicate HasDefaults()
      reads this, allLines, longDividerLines, shortDividerLines, sectionLines,
            subsectionLines, headerLines, footerLines
    {
      allLines.prefixString == "LOG" && allLines.padLength == 0 && allLines.padString == " "
      && longDividerLines.padLength == 70 && longDividerLines.padString == "-"
      && shortDividerLines.padLength == 30 && shortDividerLines.padString == "-"
      && sectionLines.padLength == 60 && sectionLines.padString == "#"
      && subsectionLines.padLength == 50 && subsectionLines.padString == "-"
      && headerLines.padLength == 40 && headerLines.padString == "\\/"
      && footerLines.padLength == 40 && footerLines.padString == "/\\"
    }

    /** Every new options object gets its own new records, holding the
        defaults. */
    constructor()
      ensures fresh(allLines) && fresh(longDividerLines) && fresh(shortDividerLines)
      ensures fresh(sectionLines) && fresh(subsectionLines) && fresh(headerLines) && fresh(footerLines)
      ensures Separate() && HasDefaults()
    {
      allLines := new LinePrefix("LOG", 0, " ");
      longDividerLines := new LinePadding(70, "-");
      shortDividerLines := new LinePadding(30, "-");
      sectionLines := new LinePadding(60, "#");
      subsectionLines := new LinePadding(50, "-");
      headerLines := new LinePadding(40, "\\/");
      footerLines := new LinePadding(40, "/\\");
    }
  }
}
