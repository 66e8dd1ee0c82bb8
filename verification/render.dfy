/** How the page lays out a generated text: the text is cut at every
    newline and each line becomes one block, chosen by how the line
    starts. */
module Render {
  import opened Text

  /** One rendered line. Headings show the line without its marker; a
      numbered item and a paragraph show the whole line. */
  datatype Block = Heading1(text: string) | Heading2(text: string) | NumberedItem(line: string) | Paragraph(line: string)

  // ---------------------------------------------------------------------------
  // The numbered-item pattern
  // ---------------------------------------------------------------------------

  /** The regular expression `^\d+\.`: one or more ASCII digits at the
      start of the line, then a full stop. */
  ghost predicate NumberedPattern(line: string) {
    exists k :: 1 <= k < |line| && AllDigits(line[..k]) && line[k] == '.'
  }

  /** Length of the run of digits the line starts with. */
  function LeadingDigits(line: string): (n: nat)
    ensures n <= |line|
    ensures AllDigits(line[..n])
    ensures n < |line| ==> !IsDigit(line[n])
    decreases |line|
  {
    if |line| > 0 && IsDigit(line[0]) then
      var rest := LeadingDigits(line[1..]);
      assert line[1..][..rest] == line[1..rest + 1];
      1 + rest
    else 0
  }

  /** The executable test: the maximal run of digits is non-empty and is
      followed by a full stop. */
  predicate IsNumbered(line: string) {
    var n := LeadingDigits(line);
    0 < n < |line| && line[n] == '.'
  }

  /** The test agrees with the pattern: a full stop is not a digit, so any
      run of digits the pattern can stop at is the maximal one. */
  lemma IsNumberedIffPattern(line: string)
    ensures IsNumbered(line) <==> NumberedPattern(line)
  {
    var n := LeadingDigits(line);
    if NumberedPattern(line) {
      var k :| 1 <= k < |line| && AllDigits(line[..k]) && line[k] == '.';
    }
  }

  // ---------------------------------------------------------------------------
  // One line
  // ---------------------------------------------------------------------------

  const Heading1Marker: string := "# "
  const Heading2Marker: string := "## "

  /** The tests in the page's order: `# `, then `## `, then the pattern,
      else a paragraph. A heading's text is the line with its first
      occurrence of the marker removed, which is the marker it starts with. */
  function Classify(line: string): (b: Block)
    ensures b.Heading1? <==> StartsWith(line, Heading1Marker)
    ensures b.Heading2? <==> StartsWith(line, Heading2Marker)
    ensures b.NumberedItem? <==> NumberedPattern(line)
    ensures b.Heading1? ==> b.text == line[2..]
    ensures b.Heading2? ==> b.text == line[3..]
    ensures b.NumberedItem? || b.Paragraph? ==> b.line == line
  {
    IsNumberedIffPattern(line);
    MarkersExclusive(line);
    if StartsWith(line, Heading1Marker) then Heading1(ReplaceFirst(line, Heading1Marker, ""))
    else if StartsWith(line, Heading2Marker) then Heading2(ReplaceFirst(line, Heading2Marker, ""))
    else if IsNumbered(line) then NumberedItem(line)
    else Paragraph(line)
  }

  /** No line starts with both markers, and a numbered line starts with
      neither: the second character tells the markers apart, the first
      tells them from a digit. */
  lemma MarkersExclusive(line: string)
    ensures !(StartsWith(line, Heading1Marker) && StartsWith(line, Heading2Marker))
    ensures IsNumbered(line) ==> !StartsWith(line, Heading1Marker) && !StartsWith(line, Heading2Marker)
    ensures StartsWith(line, Heading1Marker) ==> line == Heading1Marker + line[2..]
    ensures StartsWith(line, Heading2Marker) ==> line == Heading2Marker + line[3..]
  {
    if StartsWith(line, Heading1Marker) {
      assert line[1] == line[..2][1] == ' ';
      assert line == line[..2] + line[2..];
    }
    if StartsWith(line, Heading2Marker) {
      assert line[1] == line[..3][1] == '#';
      assert line == line[..3] + line[3..];
    }
    if StartsWith(line, Heading1Marker) || StartsWith(line, Heading2Marker) {
      assert line[0] == '#';
      assert !IsDigit(line[0]);
    }
  }

  /** The line a block stands for. */
  function Source(b: Block): string {
    match b
    case Heading1(text) => Heading1Marker + text
    case Heading2(text) => Heading2Marker + text
    case NumberedItem(line) => line
    case Paragraph(line) => line
  }

  /** Classifying loses nothing: the block gives back its line. */
  lemma ClassifySource(line: string)
    ensures Source(Classify(line)) == line
  {
    MarkersExclusive(line);
  }

  /** The blocks classification can produce: a numbered item's line fits
      the pattern, and a paragraph's line fits none of the three tests. */
  ghost predicate Canonical(b: Block) {
    match b
    case Heading1(_) => true
    case Heading2(_) => true
    case NumberedItem(line) => NumberedPattern(line)
    case Paragraph(line) => !StartsWith(line, Heading1Marker) && !StartsWith(line, Heading2Marker) && !NumberedPattern(line)
  }

  /** Every canonical block is what its own line classifies to; together
      with ClassifySource, classification is a bijection between lines and
      canonical blocks. */
  lemma SourceClassify(b: Block)
    requires Canonical(b)
    ensures Classify(Source(b)) == b
  {
    var line := Source(b);
    match b
    case Heading1(text) =>
      PrefixOfConcat(Heading1Marker, text);
      assert line[2..] == text;
    case Heading2(text) =>
      PrefixOfConcat(Heading2Marker, text);
      assert line[3..] == text;
      assert line[1] == '#';
    case NumberedItem(_) =>
    case Paragraph(_) =>
  }

  // ---------------------------------------------------------------------------
  // The whole text
  // ---------------------------------------------------------------------------

  /** `content.split('\n').map(...)`: one block per line, in order. */
  function RenderText(content: string): (r: seq<Block>)
    ensures |r| == Count(content, '\n') + 1
    ensures forall i :: 0 <= i < |r| ==> r[i] == Classify(SplitLines(content)[i])
  {
    var lines := SplitLines(content);
    seq(|lines|, i requires 0 <= i < |lines| => Classify(lines[i]))
  }

  /** The lines the blocks stand for. */
  function Sources(bs: seq<Block>): (r: seq<string>)
    ensures |r| == |bs|
  {
    seq(|bs|, i requires 0 <= i < |bs| => Source(bs[i]))
  }

  /** Rendering is lossless: the blocks' lines, joined by newlines, give
      the text back, whatever it holds. */
  lemma RenderRoundTrip(content: string)
    ensures Join(Sources(RenderText(content)), "\n") == content
  {
    var lines := SplitLines(content);
    var back := Sources(RenderText(content));
    forall i | 0 <= i < |lines| ensures back[i] == lines[i] {
      ClassifySource(lines[i]);
    }
    assert back == lines;
    SplitLinesJoin(content);
  }

  /** No block renders a newline: every block's line is a single line. */
  lemma RenderedLinesAreSingle(content: string)
    ensures forall i :: 0 <= i < |RenderText(content)| ==> '\n' !in Source(RenderText(content)[i])
  {
    forall i | 0 <= i < |RenderText(content)| ensures '\n' !in Source(RenderText(content)[i]) {
      ClassifySource(SplitLines(content)[i]);
    }
  }
}
