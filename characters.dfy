/** The layout characters shared by every logger. */
module Characters {
  /** One level of indentation. */
  const Indent: string := "\t"

  /** `Environment.NewLine` is a platform constant: a line feed, or a
      carriage return and a line feed. */
  predicate IsNewLine(s: string) {
    s == "\n" || s == "\r\n"
  }

  type NewLine = s: string | IsNewLine(s) witness "\n"
}
