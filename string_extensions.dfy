/** Right padding with a pattern of one or more characters
    (`StringExtensions.PadRight`) and the block-by-block repetition it uses
    (`StringExtensions.Repeat`). */
module StringExtensions {
  import opened Wrappers
  import Text

  /** `count` copies of `text`, one after another: what `Repeat` returns. */
  function Repeated(text: string, count: nat): (r: string)
    ensures |r| == |text| * count
  {
    if count == 0 then "" else Repeated(text, count - 1) + text
  }

  /** The k-th block of `|text|` characters of `Repeated(text, count)` is
      `text` itself. */
  lemma {:induction false} RepeatedBlock(text: string, count: nat, k: nat)
    requires k < count
    ensures k * |text| + |text| <= |text| * count
    ensures Repeated(text, count)[k * |text|..k * |text| + |text|] == text
  {
    var n := |text|;
    assert (k + 1) * n <= count * n by {
      assert k + 1 <= count;
      MulMonotone(k + 1, count, n);
    }
    if k + 1 < count {
      RepeatedBlock(text, count - 1, k);
      var r := Repeated(text, count - 1);
      assert Repeated(text, count) == r + text;
      assert (r + text)[k * n..k * n + n] == r[k * n..k * n + n];
    } else {
      assert k * n == n * (count - 1);
    }
  }

  /** Every position of a repetition holds the matching character of the
      repeated text. */
  lemma {:induction false} RepeatedAt(text: string, count: nat, i: nat)
    requires i < |text| * count
    ensures |text| > 0 && Repeated(text, count)[i] == text[i % |text|]
  {
    var n := |text|;
    var r := Repeated(text, count - 1);
    assert count > 0 && Repeated(text, count) == r + text;
    if i < n * (count - 1) {
      RepeatedAt(text, count - 1, i);
    } else {
      assert n > 0;
      var j := i - n * (count - 1);
      assert 0 <= j < n;
      ModOfBlock(i, count - 1, n);
    }
  }

  lemma MulMonotone(a: nat, b: nat, n: nat)
    requires a <= b
    ensures a * n <= b * n
  {
  }

  lemma ModOfBlock(i: nat, k: nat, n: nat)
    requires n > 0 && n * k <= i < n * k + n
    ensures i % n == i - n * k
  {
    var q, r := i / n, i % n;
    assert i == q * n + r && 0 <= r < n;
    if q > k {
      MulMonotone(k + 1, q, n);
      assert false;
    } else if q < k {
      MulMonotone(q + 1, k, n);
      assert false;
    }
  }

  /** Copies `text` into `span` at `offset`, leaving every other slot alone
      (`ReadOnlySpan<char>.CopyTo` onto a slice). */
  method CopyTo(text: string, span: array<char>, offset: nat)
    requires offset + |text| <= span.Length
    modifies span
    ensures span[offset..offset + |text|] == text
    ensures span[..offset] == old(span[..offset])
    ensures span[offset + |text|..] == old(span[offset + |text|..])
  {
    for j := 0 to |text|
      invariant span[offset..offset + j] == text[..j]
      invariant span[..offset] == old(span[..offset])
      invariant span[offset + |text|..] == old(span[offset + |text|..])
    {
      span[offset + j] := text[j];
    }
  }

  /** `Repeat(text, count)`: a buffer of `|text| * count` characters filled
      block by block. `count` is an unsigned 32-bit integer. */
  method Repeat(text: string, count: nat) returns (r: string)
    requires count < 0x1_0000_0000
    ensures r == Repeated(text, count)
  {
    var span := new char[|text| * count];
    var offset := 0;
    for index := 0 to count
      invariant offset == index * |text|
      invariant offset <= span.Length
      invariant span[..offset] == Repeated(text, index)
    {
      MulMonotone(index + 1, count, |text|);
      CopyTo(text, span, offset);
      assert span[..offset + |text|] == span[..offset] + span[offset..offset + |text|];
      offset := offset + |text|;
    }
    r := span[..];
  }

  /** `Math.Ceiling((double)a / b)` for the values `PadRight` divides: the
      quotient of two 32-bit integers is exact enough for the ceiling to be
      the integer one. */
  function CeilDiv(a: nat, b: nat): (q: nat)
    requires b > 0
    ensures q * b >= a
    ensures q == 0 || (q - 1) * b < a
  {
    (a + b - 1) / b
  }

  /** `text.PadRight(totalWidth, paddingStr)`: null text is the empty text;
      a width not above the text's length, or a null or empty pattern, leaves
      the text unchanged; a one-character pattern pads with that character;
      a longer pattern is tiled after the text and the whole cut to exactly
      `totalWidth` characters. */
  function PadRight(text: Option<string>, totalWidth: int, paddingStr: Option<string>): (r: string)
    ensures var t := text.GetOr("");
            |r| == if Text.IsNullOrEmpty(paddingStr) || totalWidth <= |t| then |t| else totalWidth
    ensures var t := text.GetOr(""); r[..|t|] == t
    ensures var t := text.GetOr("");
            (Text.IsNullOrEmpty(paddingStr) || totalWidth <= |t|) ==> r == t
    ensures var t := text.GetOr("");
            forall i :: |t| <= i < |r| ==>
              paddingStr.Some? && |paddingStr.value| > 0
              && r[i] == paddingStr.value[(i - |t|) % |paddingStr.value|]
  {
    var t := text.GetOr("");
    if totalWidth <= |t| || Text.IsNullOrEmpty(paddingStr) then t
    else
      var p := paddingStr.value;
      var paddingLength := totalWidth - |t|;
      if |p| == 1 then
        var padded := Text.PadRightChar(t, totalWidth, p[0]).value;
        assert forall i :: |t| <= i < |padded| ==> padded[i] == p[(i - |t|) % |p|];
        padded
      else
        var paddingCount := CeilDiv(paddingLength, |p|);
        var padded := t + Repeated(p, paddingCount);
        assert |padded| >= totalWidth;
        var r := padded[..totalWidth];
        assert forall i | |t| <= i < |r| :: r[i] == p[(i - |t|) % |p|] by {
          forall i | |t| <= i < |r| ensures r[i] == p[(i - |t|) % |p|] {
            RepeatedAt(p, paddingCount, i - |t|);
          }
        }
        r
  }

  /** `PadRight` with a non-empty pattern gives exactly the longer of the
      text and the width: no truncation and no overshoot. */
  lemma PadRightLength(text: string, totalWidth: int, paddingStr: string)
    requires paddingStr != ""
    ensures |PadRight(Some(text), totalWidth, Some(paddingStr))|
            == if totalWidth <= |text| then |text| else totalWidth
  {
  }

  /** The tile count is enough to reach the width, so the final cut never
      fails, and one tile fewer would not be. */
  lemma PaddingCountCovers(textLength: nat, totalWidth: int, patternLength: nat)
    requires patternLength > 1 && textLength < totalWidth
    ensures textLength + CeilDiv(totalWidth - textLength, patternLength) * patternLength >= totalWidth
    ensures textLength + (CeilDiv(totalWidth - textLength, patternLength) - 1) * patternLength < totalWidth
  {
  }

  /** An independent description of a padded text: the text, then the
      pattern tiled over the remaining positions. */
  function Tiled(text: string, totalWidth: int, pattern: string): (r: string)
    requires pattern != ""
  {
    if totalWidth <= |text| then text
    else text + seq(totalWidth - |text|, i requires 0 <= i => pattern[i % |pattern|])
  }

  /** `PadRight` agrees with the tiling description for every non-empty
      pattern, one character long or longer. */
  lemma PadRightIsTiled(text: string, totalWidth: int, pattern: string)
    requires pattern != ""
    ensures PadRight(Some(text), totalWidth, Some(pattern)) == Tiled(text, totalWidth, pattern)
  {
    var r := PadRight(Some(text), totalWidth, Some(pattern));
    var s := Tiled(text, totalWidth, pattern);
    assert |r| == |s|;
    forall i | 0 <= i < |r| ensures r[i] == s[i] {
      if i < |text| {
        assert r[..|text|] == text;
        assert r[i] == r[..|text|][i];
      }
    }
  }

  /** A null text pads like the empty text. */
  lemma NullTextIsEmpty(totalWidth: int, paddingStr: Option<string>)
    ensures PadRight(None, totalWidth, paddingStr) == PadRight(Some(""), totalWidth, paddingStr)
  {
  }

  /** "AB" padded to 7 with "-=" and "Header" padded to 10 with "#". */
  lemma PadRightExamples()
    ensures PadRight(Some("AB"), 7, Some("-=")) == "AB-=-=-"
    ensures PadRight(Some("Header"), 10, Some("#")) == "Header####"
  {
    PadRightIsTiled("AB", 7, "-=");
    PadRightIsTiled("Header", 10, "#");
  }
}
