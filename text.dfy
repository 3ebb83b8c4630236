/** The pieces of .NET string behaviour the loggers depend on:
    `string.IsNullOrEmpty`, `string.IsNullOrWhiteSpace`, `Trim()`,
    `new string(c, n)`, `String.PadRight(int, char)`, the decimal rendering
    of an integer and `string.Format` with positional placeholders. */
module Text {
  import opened Wrappers

  /** A fixed set of the characters .NET treats as white space. */
  predicate IsWhiteSpace(c: char) {
    c == ' ' || c == '\t' || c == '\n' || c == '\r' || c == '\U{0B}' || c == '\U{0C}'
    || c == '\U{85}' || c == '\U{A0}'
  }

  predicate IsBlank(s: string) {
    forall i :: 0 <= i < |s| ==> IsWhiteSpace(s[i])
  }

  /** `string.IsNullOrEmpty`: a null reference is `None`. */
  predicate IsNullOrEmpty(s: Option<string>) {
    s.None? || s.value == ""
  }

  /** `string.IsNullOrWhiteSpace`. */
  predicate IsNullOrWhiteSpace(s: Option<string>) {
    s.None? || IsBlank(s.value)
  }

  // ---------------------------------------------------------------- Trim

  function TrimStart(s: string): (r: string)
    ensures |r| <= |s| && r == s[|s| - |r|..]
    ensures r == [] || !IsWhiteSpace(r[0])
    ensures IsBlank(s[..|s| - |r|])
  {
    if s == [] || !IsWhiteSpace(s[0]) then s
    else
      var r := TrimStart(s[1..]);
      assert s[1..][..|s[1..]| - |r|] == s[1..|s| - |r|];
      r
  }

  function TrimEnd(s: string): (r: string)
    ensures |r| <= |s| && r == s[..|r|]
    ensures r == [] || !IsWhiteSpace(r[|r| - 1])
    ensures IsBlank(s[|r|..])
  {
    if s == [] || !IsWhiteSpace(s[|s| - 1]) then s
    else
      var r := TrimEnd(s[..|s| - 1]);
      assert s[..|s| - 1][|r|..] == s[|r|..|s| - 1];
      r
  }

  /** `r` is `s[i..j]` with nothing but white space around it. */
  predicate TrimmedAt(s: string, r: string, i: nat, j: nat) {
    i <= j <= |s| && r == s[i..j] && IsBlank(s[..i]) && IsBlank(s[j..])
  }

  /** Trimming the end of a suffix left by `TrimStart` keeps a slice of
      the whole text with white space around it. */
  lemma TrimEndOfSuffix(s: string, a: string, r: string)
    requires |a| <= |s| && a == s[|s| - |a|..] && IsBlank(s[..|s| - |a|])
    requires |r| <= |a| && r == a[..|r|] && IsBlank(a[|r|..])
    ensures TrimmedAt(s, r, |s| - |a|, |s| - |a| + |r|)
  {
    var i := |s| - |a|;
    var j := i + |r|;
    forall k | 0 <= k < |r|
      ensures r[k] == s[i + k]
    {
      assert r[k] == a[k];
    }
    forall k | j <= k < |s|
      ensures IsWhiteSpace(s[k])
    {
      assert s[k] == a[k - i];
      assert a[|r|..][k - j] == a[k - i];
    }
  }

  /** `Trim()`: the text between the first and the last character that is
      not white space. */
  function Trim(s: string): (r: string)
    ensures exists i: nat, j: nat :: TrimmedAt(s, r, i, j)
    ensures r == [] || (!IsWhiteSpace(r[0]) && !IsWhiteSpace(r[|r| - 1]))
  {
    var a := TrimStart(s);
    var r := TrimEnd(a);
    TrimEndOfSuffix(s, a, r);
    r
  }

  /** Trimming leaves nothing more to trim. */
  lemma TrimIdempotent(s: string)
    ensures Trim(Trim(s)) == Trim(s)
  {
    var t := Trim(s);
    if t != [] {
      assert TrimStart(t) == t;
      assert TrimEnd(t) == t;
    }
  }

  /** A text that neither starts nor ends with white space is its own trim. */
  lemma TrimOfTrimmed(s: string)
    requires s == [] || (!IsWhiteSpace(s[0]) && !IsWhiteSpace(s[|s| - 1]))
    ensures Trim(s) == s
  {
  }

  // ------------------------------------------------------ repeated chars

  /** `new string(c, n)` for a count that is not negative. */
  function Chars(c: char, n: nat): (r: string)
    ensures |r| == n
    ensures forall i :: 0 <= i < n ==> r[i] == c
  {
    if n == 0 then "" else Chars(c, n - 1) + [c]
  }

  /** `new string(c, count)`: a negative count throws
      ArgumentOutOfRangeException (`None`). */
  function NewString(c: char, count: int): (r: Option<string>)
    ensures r.Some? <==> count >= 0
    ensures r.Some? ==> r.value == Chars(c, count)
  {
    if count < 0 then None else Some(Chars(c, count))
  }

  /** `String.PadRight(int totalWidth, char paddingChar)`: a negative width
      throws ArgumentOutOfRangeException (`None`); a width not above the
      length leaves the text alone; otherwise the text is followed by as
      many pad characters as make it exactly `totalWidth` long. */
  function PadRightChar(text: string, totalWidth: int, paddingChar: char): (r: Option<string>)
    ensures r.None? <==> totalWidth < 0
    ensures r.Some? ==> |r.value| == if totalWidth <= |text| then |text| else totalWidth
    ensures r.Some? ==> r.value[..|text|] == text
    ensures r.Some? ==> forall i :: |text| <= i < |r.value| ==> r.value[i] == paddingChar
  {
    if totalWidth < 0 then None
    else if totalWidth <= |text| then Some(text)
    else Some(text + Chars(paddingChar, totalWidth - |text|))
  }

  // ------------------------------------------------------------- integers

  function DigitChar(d: nat): (c: char)
    requires d < 10
    ensures '0' <= c <= '9'
  {
    "0123456789"[d]
  }

  function NatToString(n: nat): (r: string)
    ensures |r| >= 1
    ensures forall i :: 0 <= i < |r| ==> '0' <= r[i] <= '9'
  {
    if n < 10 then [DigitChar(n)] else NatToString(n / 10) + [DigitChar(n % 10)]
  }

  /** The invariant-culture decimal rendering of an integer. */
  function IntToString(i: int): (r: string)
    ensures NoBraces(r)
  {
    if i < 0 then "-" + NatToString(-i) else NatToString(i)
  }

  /** A nullable integer inside an interpolated string: null renders as
      nothing. */
  function NullableIntToString(i: Option<int>): (r: string)
    ensures NoBraces(r)
    ensures i.None? ==> r == ""
  {
    if i.None? then "" else IntToString(i.value)
  }

  function DigitValue(c: char): nat
    requires '0' <= c <= '9'
  {
    (c as int) - ('0' as int)
  }

  /** The value of a run of decimal digits. */
  function DecimalValue(s: string): nat
    requires forall i :: 0 <= i < |s| ==> '0' <= s[i] <= '9'
  {
    if s == [] then 0 else DecimalValue(s[..|s| - 1]) * 10 + DigitValue(s[|s| - 1])
  }

  /** Reading back the digits of a natural number gives the number. */
  lemma {:induction false} DecimalValueOfNatToString(n: nat)
    ensures DecimalValue(NatToString(n)) == n
  {
    if n >= 10 {
      var s := NatToString(n);
      assert s[..|s| - 1] == NatToString(n / 10);
      DecimalValueOfNatToString(n / 10);
    }
  }

  // ------------------------------------------------------- string.Format

  predicate NoBraces(s: string) {
    '{' !in s && '}' !in s
  }

  /** The number of decimal digits at the start of `s`. */
  function DigitRun(s: string): (n: nat)
    ensures n <= |s|
    ensures forall i :: 0 <= i < n ==> '0' <= s[i] <= '9'
    ensures n < |s| ==> !('0' <= s[n] <= '9')
  {
    if s == [] || !('0' <= s[0] <= '9') then 0 else 1 + DigitRun(s[1..])
  }

  /** `string.Format(format, args)` where each argument is already rendered
      as text. `{{` and `}}` stand for single braces and `{n}` for the n-th
      argument; a reference to a missing argument, an unmatched brace or any
      other use of a brace throws FormatException (`None`). */
  function Format(format: string, args: seq<string>): (r: Option<string>)
    decreases |format|
  {
    if format == [] then Some("")
    else if format[0] == '{' then
      if |format| >= 2 && format[1] == '{' then Prepend("{", Format(format[2..], args))
      else
        var n := DigitRun(format[1..]);
        if 0 < n && 1 + n < |format| && format[1 + n] == '}' then
          var index := DecimalValue(format[1..1 + n]);
          if index < |args| then Prepend(args[index], Format(format[2 + n..], args))
          else None
        else None
    else if format[0] == '}' then
      if |format| >= 2 && format[1] == '}' then Prepend("}", Format(format[2..], args))
      else None
    else Prepend([format[0]], Format(format[1..], args))
  }

  function Prepend(s: string, r: Option<string>): (p: Option<string>)
    ensures p.Some? <==> r.Some?
    ensures p.Some? ==> p.value == s + r.value
  {
    if r.None? then None else Some(s + r.value)
  }

  /** A format without braces is printed as it stands, whatever the
      arguments. */
  lemma {:induction false} FormatWithoutBraces(format: string, args: seq<string>)
    requires NoBraces(format)
    ensures Format(format, args) == Some(format)
  {
    if format != [] {
      assert format[0] != '{' && format[0] != '}';
      FormatWithoutBraces(format[1..], args);
      assert [format[0]] + format[1..] == format;
    }
  }

  /** The same, for any format: one without braces comes back unchanged. */
  lemma FormatPlain(format: string, args: seq<string>)
    ensures NoBraces(format) ==> Format(format, args) == Some(format)
  {
    if NoBraces(format) {
      FormatWithoutBraces(format, args);
    }
  }

  /** Doubling every brace: the text `string.Format` turns back into `s`. */
  function EscapeBraces(s: string): (r: string)
    ensures |r| >= |s|
  {
    if s == [] then ""
    else if s[0] == '{' || s[0] == '}' then [s[0], s[0]] + EscapeBraces(s[1..])
    else [s[0]] + EscapeBraces(s[1..])
  }

  /** Formatting an escaped text gives back the text itself. */
  lemma {:induction false} FormatEscaped(s: string, args: seq<string>)
    ensures Format(EscapeBraces(s), args) == Some(s)
  {
    if s != [] {
      var e := EscapeBraces(s);
      FormatEscaped(s[1..], args);
      if s[0] == '{' || s[0] == '}' {
        assert e[2..] == EscapeBraces(s[1..]);
      } else {
        assert e[0] == s[0] && e[1..] == EscapeBraces(s[1..]);
      }
      assert [s[0]] + s[1..] == s;
    }
  }

  /** A format that holds a lone opening brace throws. */
  lemma LoneOpeningBraceThrows(args: seq<string>)
    ensures Format("{", args).None?
    ensures Format("x {y}", args).None?
  {
    assert DigitRun("y}") == 0;
  }

  /** A one-digit placeholder is replaced by the argument it names. */
  lemma FormatOneDigitPlaceholder(format: string, args: seq<string>)
    requires |format| >= 3 && format[0] == '{' && '0' <= format[1] <= '9' && format[2] == '}'
    requires DigitValue(format[1]) < |args|
    ensures Format(format, args) == Prepend(args[DigitValue(format[1])], Format(format[3..], args))
  {
    var tail := format[1..];
    assert tail[0] == format[1] && tail[1] == '}';
    assert DigitRun(tail[1..]) == 0;
    assert DigitRun(tail) == 1;
    var digits := format[1..2];
    assert digits[..0] == [] && digits[0] == format[1];
    assert DecimalValue(digits) == DigitValue(format[1]);
  }

  /** Placeholders are replaced by their argument, in any order. */
  lemma FormatPlaceholder(a: string, b: string)
    ensures Format("{1}-{0}", [a, b]) == Some(b + "-" + a)
  {
    var f := "{1}-{0}";
    var g := "{0}";
    var h := "-{0}";
    FormatOneDigitPlaceholder(g, [a, b]);
    assert g[3..] == [];
    assert a + "" == a;
    FormatPlainPrefix("-", g, [a, b]);
    assert "-" + g == h;
    FormatOneDigitPlaceholder(f, [a, b]);
    assert f[3..] == h;
    assert b + ("-" + a) == b + "-" + a;
  }

  /** A one-digit placeholder naming a missing argument throws. */
  lemma FormatMissingArgument(format: string, args: seq<string>)
    requires |format| >= 3 && format[0] == '{' && '0' <= format[1] <= '9' && format[2] == '}'
    requires DigitValue(format[1]) >= |args|
    ensures Format(format, args).None?
  {
    var tail := format[1..];
    assert tail[0] == format[1] && tail[1] == '}';
    assert DigitRun(tail[1..]) == 0;
    assert DigitRun(tail) == 1;
    var digits := format[1..2];
    assert digits[..0] == [] && digits[0] == format[1];
    assert DecimalValue(digits) == DigitValue(format[1]);
  }

  /** Text without braces in front of a format is copied ahead of what the
      rest formats to, and shares its failure. */
  lemma {:induction false} FormatPlainPrefix(a: string, b: string, args: seq<string>)
    requires NoBraces(a)
    ensures Format(a + b, args) == Prepend(a, Format(b, args))
  {
    if a != [] {
      var f := a + b;
      assert f[0] == a[0] && a[0] != '{' && a[0] != '}';
      assert f[1..] == a[1..] + b;
      FormatPlainPrefix(a[1..], b, args);
      assert Format(f, args) == Prepend([a[0]], Format(f[1..], args));
      assert [a[0]] + a[1..] == a;
      if Format(b, args).Some? {
        assert [a[0]] + (a[1..] + Format(b, args).value) == a + Format(b, args).value;
      }
    } else {
      assert a + b == b;
      if Format(b, args).Some? {
        assert a + Format(b, args).value == Format(b, args).value;
      }
    }
  }

  /** An escaped placeholder formats to a real one. */
  lemma FormatEscapedPlaceholder()
    ensures Format("{{0}}", []) == Some("{0}")
  {
    assert Format("", []) == Some("");
    assert "}}"[2..] == "";
    assert Format("}}", []) == Prepend("}", Some(""));
    assert "}" + "" == "}";
    assert "0}}"[1..] == "}}";
    assert Format("0}}", []) == Prepend("0", Some("}"));
    assert "0" + "}" == "0}";
    assert "{{0}}"[2..] == "0}}";
    assert Format("{{0}}", []) == Prepend("{", Some("0}"));
    assert "{" + "0}" == "{0}";
  }

  /** With no arguments a placeholder has nothing to refer to. */
  lemma PlaceholderWithoutArgumentsThrows()
    ensures Format("{0}", []).None?
  {
    var g := "{0}";
    assert g[1..] == "0}" && DigitRun(g[1..]) == 1;
  }
}
