/** The text side of the news tool: how one headline is printed, and how the
    collected lines become the tool's return text. */
module NewsText {
  import opened Text

  const ErrorPrefix: string := "ERROR: "

  /** The text returned when no headline was collected. */
  const NoHeadlines: string := ErrorPrefix + "No news headlines could be retrieved from the selected feeds."

  /** Title clean-up: newlines become spaces, then surrounding whitespace is
      stripped. */
  function CleanTitle(title: string): (r: string)
    ensures IsStripAt(r, ReplaceChar(title, '\n', ' '), SkipSpace(ReplaceChar(title, '\n', ' '), 0))
    ensures NoNewline(r)
  {
    var spaced := ReplaceChar(title, '\n', ' ');
    var r := Strip(spaced);
    var i := SkipSpace(spaced, 0);
    assert forall k :: 0 <= k < |r| ==> r[k] == spaced[i + k];
    r
  }

  /** The line printed for one headline. */
  function HeadlineLine(name: string, title: string): string
  {
    "[" + name + "] : " + CleanTitle(title)
  }

  lemma HeadlineLineNoNewline(name: string, title: string)
    requires NoNewline(name)
    ensures NoNewline(HeadlineLine(name, title))
  {
    assert NoNewline(CleanTitle(title));
  }

  lemma HeadlineLineBracket(name: string, title: string)
    ensures |HeadlineLine(name, title)| > 0 && HeadlineLine(name, title)[0] == '['
  {
  }

  /** The tool's return text for a finished compilation. */
  function Report(lines: seq<string>): string
  {
    if |lines| == 0 then NoHeadlines else JoinLines(lines)
  }

  /** Reads the tool's text back into its lines; the fixed error text reads
      as no lines. */
  function ReadReport(text: string): seq<string>
  {
    if text == NoHeadlines then [] else SplitLines(text)
  }

  /** The report is the error text exactly when no headline was collected,
      and otherwise gives back, line by line, what was collected. */
  lemma ReportRoundTrip(lines: seq<string>)
    requires forall j :: 0 <= j < |lines| ==> NoNewline(lines[j])
    requires forall j :: 0 <= j < |lines| ==> |lines[j]| > 0 && lines[j][0] == '['
    ensures Report(lines) == NoHeadlines <==> lines == []
    ensures ReadReport(Report(lines)) == lines
  {
    if |lines| > 0 {
      var text := JoinLines(lines);
      assert text[0] == '[' by {
        if |lines| > 1 {
          assert text == lines[0] + ("\n" + JoinLines(lines[1..]));
        }
      }
      assert NoHeadlines[0] == 'E';
      SplitJoin(lines);
    }
  }

}
