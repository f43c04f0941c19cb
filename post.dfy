/**
 * The caption of a new post (src/screens/challenge/PostScreen.js): the input
 * keeps at most 100 characters, typing is limited to 4 lines, and before
 * posting `trimEmptyLines` drops a leading and a trailing line break.
 */
module PostScreen {
  import opened Text

  /** The input's `maxLength={100}`. */
  const MaxCaptionLength := 100
  const MaxLines := 4

  /** What the input hands to `onChangeText`: the edit, cut to 100 characters. */
  function Typed(newText: string): (typed: string)
    ensures |typed| <= MaxCaptionLength && |typed| <= |newText| && typed == newText[..|typed|]
  {
    CapLength(newText, MaxCaptionLength)
  }

  /** `onChangeText(newText)` as written: the leading-line-break branch does not look at the line count. */
  function OnChangeTextAsWritten(caption: string, newText: string): (r: string)
    ensures StartsWith(newText, "\n") ==> r == newText[1..]
    ensures !StartsWith(newText, "\n") && LineCount(newText) <= MaxLines ==> r == newText
    ensures !StartsWith(newText, "\n") && LineCount(newText) > MaxLines ==> r == caption
  {
    if StartsWith(newText, "\n") then newText[1..]
    else if LineCount(newText) <= MaxLines then newText
    else caption
  }

  /** A five-line caption gets through the leading-line-break branch. */
  lemma AsWrittenAllowsFiveLines()
    ensures LineCount(OnChangeTextAsWritten("", "\na\nb\nc\nd\ne")) == 5
  {
    var t := "\na\nb\nc\nd\ne";
    assert OnChangeTextAsWritten("", t) == t[1..];
  }

  /** `onChangeText` with the 4-line limit applied in both branches. */
  function OnChangeText(caption: string, newText: string): (r: string)
    ensures r == caption || r == newText || (StartsWith(newText, "\n") && r == newText[1..])
    ensures LineCount(caption) <= MaxLines ==> LineCount(r) <= MaxLines
    ensures r != caption ==> (r == newText && !StartsWith(newText, "\n")) || (r == newText[1..] && StartsWith(newText, "\n"))
  {
    if StartsWith(newText, "\n") then
      (if LineCount(newText[1..]) <= MaxLines then newText[1..] else caption)
    else if LineCount(newText) <= MaxLines then newText
    else caption
  }

  /** Typing keeps a caption of at most 4 lines and 100 characters within both limits. */
  lemma TypingKeepsLimits(caption: string, newText: string)
    requires LineCount(caption) <= MaxLines && |caption| <= MaxCaptionLength
    ensures var r := OnChangeText(caption, Typed(newText));
      LineCount(r) <= MaxLines && |r| <= MaxCaptionLength
  {
  }

  /** `trimEmptyLines()` as written: both checks read the caption as it was, and the later `setCaption` wins. */
  function TrimEmptyLinesAsWritten(caption: string): (r: string)
    ensures |caption| - 1 <= |r| <= |caption|
    ensures r == caption || (EndsWith(caption, "\n") && r == caption[..|caption| - 1])
      || (StartsWith(caption, "\n") && !EndsWith(caption, "\n") && r == caption[1..])
  {
    var afterLeading := if StartsWith(caption, "\n") then caption[1..] else caption;
    if EndsWith(caption, "\n") then caption[..|caption| - 1] else afterLeading
  }

  /** A caption with a line break at both ends keeps the leading one. */
  lemma AsWrittenKeepsLeadingBreak()
    ensures TrimEmptyLinesAsWritten("\nabc\n") == "\nabc"
  {
    assert StartsWith("\nabc\n", "\n") && EndsWith("\nabc\n", "\n");
  }

  /** `trimEmptyLines()` with the trailing check made on the caption left by the leading one. */
  function TrimEmptyLines(caption: string): (r: string)
    ensures |caption| - 2 <= |r| <= |caption|
    ensures var start := if StartsWith(caption, "\n") then 1 else 0;
      && start + |r| <= |caption| && r == caption[start..start + |r|]
      && (EndsWith(caption[start..], "\n") <==> |r| == |caption| - start - 1)
  {
    var afterLeading := if StartsWith(caption, "\n") then caption[1..] else caption;
    if EndsWith(afterLeading, "\n") then afterLeading[..|afterLeading| - 1] else afterLeading
  }

  /** The same caption loses both breaks. */
  lemma TrimRemovesBothBreaks()
    ensures TrimEmptyLines("\nabc\n") == "abc"
  {
    assert StartsWith("\nabc\n", "\n");
    assert "\nabc\n"[1..] == "abc\n";
    assert EndsWith("abc\n", "\n");
  }

  /** Trimming a caption that has a line break at both ends, and at least two characters, removes exactly those two. */
  lemma TrimBothEnds(caption: string)
    requires |caption| >= 2 && StartsWith(caption, "\n") && EndsWith(caption, "\n")
    ensures TrimEmptyLines(caption) == caption[1..|caption| - 1]
  {
    assert caption[1..][|caption| - 2..] == caption[|caption| - 1..];
  }

  /** Trimming leaves a caption that no longer ends with a line break, unless it ended with two. */
  lemma TrimLeavesNoTrailingBreak(caption: string)
    requires !EndsWith(caption, "\n\n")
    ensures !EndsWith(TrimEmptyLines(caption), "\n")
  {
    var afterLeading := if StartsWith(caption, "\n") then caption[1..] else caption;
    if EndsWith(afterLeading, "\n") && |afterLeading| >= 2 {
      var r := afterLeading[..|afterLeading| - 1];
      assert r[|r| - 1] == caption[|caption| - 2];
      assert caption[|caption| - 2..] == [caption[|caption| - 2], caption[|caption| - 1]];
      assert caption[|caption| - 1] == afterLeading[|afterLeading| - 1] == '\n';
      assert caption[|caption| - 2] != '\n';
    }
  }
}
