/**
 * The progress.txt entry parser (internal/parser/progress.go). The input
 * is the file's lines as the line scanner yields them (None when the file
 * cannot be opened or read).
 */
module Progress {
  import opened Wrappers
  import opened Text
  import Prd

  datatype ProgressEntry = ProgressEntry(timestamp: string, title: string, details: seq<string>)

  /** `\d{n}` at position `i`. */
  predicate DigitsAt(s: string, i: nat, n: nat)
    requires i + n <= |s|
    decreases n
  {
    n == 0 || (IsDigit(s[i]) && DigitsAt(s, i + 1, n - 1))
  }

  /** A digit run depends only on the characters it covers. */
  lemma {:induction false} DigitsShift(s: string, i: nat, t: string, j: nat, n: nat)
    requires i + n <= |s| && j + n <= |t| && s[i..i + n] == t[j..j + n]
    requires DigitsAt(s, i, n)
    ensures DigitsAt(t, j, n)
    decreases n
  {
    if n > 0 {
      assert s[i] == s[i..i + n][0] && t[j] == t[j..j + n][0];
      assert s[i + 1..i + n] == s[i..i + n][1..] && t[j + 1..j + n] == t[j..j + n][1..];
      DigitsShift(s, i + 1, t, j + 1, n - 1);
    }
  }

  /**
   * `\d{2}:\d{2})\]\s*(.+)$` from position `j` of a header line: the time
   * stamp from just after the opening bracket up to the clock's end, and
   * the title capture.
   */
  function ClockTail(line: string, j: nat): (r: Option<(string, string)>)
    requires 12 <= j <= |line|
    ensures r.Some? ==> (16 <= |r.value.0| && 1 + |r.value.0| < |line| &&
                         r.value.0 == line[1..1 + |r.value.0|] && line[1 + |r.value.0|] == ']')
    ensures r.Some? ==> ProperTail(line, r.value.1)
  {
    if |line| < j + 6 || !DigitsAt(line, j, 2) || line[j + 2] != ':' || !DigitsAt(line, j + 3, 2) || line[j + 5] != ']'
    then None
    else
      match Prd.Capture(line[j + 6..])
      case None => None
      case Some(title) =>
        TailOfDrop(line, j + 6, title);
        Some((line[1..j + 5], title))
  }

  /**
   * `^\[(\d{4}-\d{2}-\d{2}\s+\d{2}:\d{2})\]\s*(.+)$`: the time stamp between
   * the brackets and the title capture (not trimmed).
   */
  function HeaderMatch(line: string): (r: Option<(string, string)>)
    ensures r.Some? ==> |line| > 0 && line[0] == '['
    ensures r.Some? ==> (16 <= |r.value.0| && 1 + |r.value.0| < |line| &&
                         r.value.0 == line[1..1 + |r.value.0|] && line[1 + |r.value.0|] == ']')
    ensures r.Some? ==> ProperTail(line, r.value.1)
  {
    if |line| < 12 || line[0] != '[' || !DigitsAt(line, 1, 4) || line[5] != '-' || !DigitsAt(line, 6, 2) ||
       line[8] != '-' || !DigitsAt(line, 9, 2) then None
    else
      // `\s+` after the date: the clock starts at j
      var j := |line| - |Prd.SkipSpace(line[11..])|;
      if j == 11 then None else ClockTail(line, j)
  }

  /** `^[\s]*-\s*(.+)$`: the detail text after the dash. */
  function DetailMatch(line: string): (r: Option<string>)
    ensures r.Some? ==> ProperTail(line, r.value)
  {
    var a := Prd.SkipSpace(line);
    if a == [] || a[0] != '-' then None else Prd.Capture(a[1..])
  }

  /** ClockTail succeeds on a line that has the clock at `j` and a title capture after it. */
  lemma ClockTailFrom(line: string, j: nat, title: string)
    requires 12 <= j && j + 6 <= |line|
    requires DigitsAt(line, j, 2) && line[j + 2] == ':' && DigitsAt(line, j + 3, 2) && line[j + 5] == ']'
    requires Prd.Capture(line[j + 6..]) == Some(title)
    ensures ClockTail(line, j) == Some((line[1..j + 5], title))
  {
  }

  /** HeaderMatch reads the clock at 12 on a line with a date and one space. */
  lemma HeaderFrom(line: string)
    requires |line| >= 12 && line[0] == '[' && DigitsAt(line, 1, 4) && line[5] == '-' && DigitsAt(line, 6, 2)
    requires line[8] == '-' && DigitsAt(line, 9, 2) && Prd.SkipSpace(line[11..]) == line[12..]
    ensures HeaderMatch(line) == ClockTail(line, 12)
  {
  }

  /** Where the parts of `pre + clock + "] " + title` sit. */
  lemma ClockLayout(pre: string, clock: string, title: string)
    requires |clock| == 5
    ensures var line := pre + clock + "] " + title; var j := |pre|;
      |line| == j + 7 + |title| &&
      line[j..j + 2] == clock[0..2] && line[j + 2] == clock[2] && line[j + 3..j + 5] == clock[3..5] &&
      line[j + 5] == ']' && line[j + 6..] == [' '] + title && line[1..j + 5] == (pre + clock)[1..]
  {
  }

  /** The clock and title of a header line, read from just after the date's whitespace. */
  lemma ClockTailShape(pre: string, clock: string, title: string)
    requires |pre| >= 12
    requires |clock| == 5 && DigitsAt(clock, 0, 2) && clock[2] == ':' && DigitsAt(clock, 3, 2)
    requires title != "" && !IsRegexSpace(title[0])
    ensures ClockTail(pre + clock + "] " + title, |pre|) == Some(((pre + clock)[1..], title))
  {
    var line := pre + clock + "] " + title;
    ClockLayout(pre, clock, title);
    DigitsShift(clock, 0, line, |pre|, 2);
    DigitsShift(clock, 3, line, |pre| + 3, 2);
    Prd.CaptureAfterSpace(title);
    ClockTailFrom(line, |pre|, title);
  }

  /** Where the parts of `"[" + date + " " + clock + "] " + title` sit. */
  lemma HeaderLayout(date: string, clock: string, title: string)
    requires |date| == 10 && |clock| == 5
    ensures var line := "[" + date + " " + clock + "] " + title;
      |line| >= 18 && line[0] == '[' && line[1..5] == date[0..4] && line[5] == date[4] &&
      line[6..8] == date[5..7] && line[8] == date[7] && line[9..11] == date[8..10] &&
      line[11..] == [' '] + line[12..] && line[12] == clock[0] &&
      ("[" + date + " " + clock)[1..] == date + " " + clock
  {
    var line := "[" + date + " " + clock + "] " + title;
    assert line[11..] == [' '] + line[12..];
  }

  /**
   * A `[YYYY-MM-DD HH:MM] title` line, with a title that does not start
   * with whitespace, yields the date and clock as its time stamp and the
   * title unchanged.
   */
  lemma HeaderMatchShape(date: string, clock: string, title: string)
    requires |date| == 10 && DigitsAt(date, 0, 4) && date[4] == '-' && DigitsAt(date, 5, 2) &&
             date[7] == '-' && DigitsAt(date, 8, 2)
    requires |clock| == 5 && DigitsAt(clock, 0, 2) && clock[2] == ':' && DigitsAt(clock, 3, 2)
    requires title != "" && !IsRegexSpace(title[0])
    ensures HeaderMatch("[" + date + " " + clock + "] " + title) == Some((date + " " + clock, title))
  {
    var line := "[" + date + " " + clock + "] " + title;
    HeaderLayout(date, clock, title);
    DigitsShift(date, 0, line, 1, 4);
    DigitsShift(date, 5, line, 6, 2);
    DigitsShift(date, 8, line, 9, 2);
    Prd.SpaceIsRegexSpace();
    Prd.SkipSpaceDropsLeading([' '], line[12..]);
    Prd.SkipSpaceStops(line[12..]);
    HeaderFrom(line);
    ClockTailShape("[" + date + " ", clock, title);
  }

  /** DetailMatch on a line whose leading whitespace gives way to a dash. */
  lemma DetailFrom(line: string, dash: string, text: string)
    requires Prd.SkipSpace(line) == dash && dash != [] && dash[0] == '-'
    requires Prd.Capture(dash[1..]) == Some(text)
    ensures DetailMatch(line) == Some(text)
  {
  }

  /** An indented `- text` line, text not starting with whitespace, is the detail `text`. */
  lemma DetailMatchShape(indent: string, text: string)
    requires AllRegexSpace(indent)
    requires text != "" && !IsRegexSpace(text[0])
    ensures DetailMatch(indent + "- " + text) == Some(text)
  {
    var dash := "- " + text;
    ConcatAssoc(indent, "- ", text);
    Prd.SkipSpaceDropsLeading(indent, dash);
    Prd.SkipSpaceStops(dash);
    Prd.CaptureAfterDash(text);
    DetailFrom(indent + dash, dash, text);
  }

  predicate IsBlank(line: string) {
    TrimSpace(line) == ""
  }

  /** A header line is never blank. */
  lemma HeaderNotBlank(line: string)
    requires HeaderMatch(line).Some?
    ensures !IsBlank(line)
  {
    assert line[0] == '[';
    TrimSpaceEmpty(line);
  }

  /** The scanner state: entries emitted so far and the entry being filled. */
  datatype ParseState = ParseState(entries: seq<ProgressEntry>, current: Option<ProgressEntry>)

  /** Emit the open entry, if any. */
  function Flush(entries: seq<ProgressEntry>, current: Option<ProgressEntry>): seq<ProgressEntry> {
    if current.Some? then entries + [current.value] else entries
  }

  /**
   * One line: a blank line closes the open entry; a header closes it and
   * opens a new one; a detail line extends the open entry; anything else
   * (and a detail with no open entry) is ignored.
   */
  function Step(st: ParseState, line: string): ParseState {
    if IsBlank(line) then ParseState(Flush(st.entries, st.current), None)
    else match HeaderMatch(line)
      case Some((timestamp, title)) =>
        ParseState(Flush(st.entries, st.current), Some(ProgressEntry(timestamp, title, [])))
      case None =>
        if st.current.Some? && DetailMatch(line).Some? then
          st.(current := Some(st.current.value.(details := st.current.value.details + [DetailMatch(line).value])))
        else st
  }

  function Scan(lines: seq<string>): ParseState
    decreases |lines|
  {
    if |lines| == 0 then ParseState([], None)
    else Step(Scan(lines[..|lines| - 1]), lines[|lines| - 1])
  }

  /** The entries of a file: the scan, with the entry still open at the end flushed. */
  function Entries(lines: seq<string>): seq<ProgressEntry> {
    var st := Scan(lines);
    Flush(st.entries, st.current)
  }

  /** `ParseProgress`: the scanner loop with its current-entry state. */
  method ParseProgress(file: Option<seq<string>>) returns (entries: Option<seq<ProgressEntry>>)
    requires file.Some? ==> Prd.ScannerLines(file.value)
    ensures entries.None? <==> file.None?
    ensures file.Some? ==> entries == Some(Entries(file.value))
  {
    if file.None? {
      return None;
    }
    var lines := file.value;
    var acc: seq<ProgressEntry> := [];
    var currentEntry: Option<ProgressEntry> := None;
    var i := 0;
    while i < |lines|
      invariant 0 <= i <= |lines|
      invariant ParseState(acc, currentEntry) == Scan(lines[..i])
    {
      var line := lines[i];
      assert lines[..i + 1][..i] == lines[..i];
      i := i + 1;
      if TrimSpace(line) == "" {
        if currentEntry.Some? {
          acc := acc + [currentEntry.value];
          currentEntry := None;
        }
        continue;
      }
      var header := HeaderMatch(line);
      if header.Some? {
        if currentEntry.Some? {
          acc := acc + [currentEntry.value];
        }
        currentEntry := Some(ProgressEntry(header.value.0, header.value.1, []));
        continue;
      }
      if currentEntry.Some? {
        var detail := DetailMatch(line);
        if detail.Some? {
          currentEntry := Some(currentEntry.value.(details := currentEntry.value.details + [detail.value]));
        }
      }
    }
    assert lines[..|lines|] == lines;
    if currentEntry.Some? {
      acc := acc + [currentEntry.value];
    }
    return Some(acc);
  }

  /** The (timestamp, title) pairs of the header lines, in file order. */
  function Headers(lines: seq<string>): seq<(string, string)>
    decreases |lines|
  {
    if |lines| == 0 then []
    else
      var h := HeaderMatch(lines[|lines| - 1]);
      Headers(lines[..|lines| - 1]) + (if h.Some? then [h.value] else [])
  }

  function Heads(entries: seq<ProgressEntry>): seq<(string, string)>
    decreases |entries|
  {
    if |entries| == 0 then []
    else Heads(entries[..|entries| - 1]) + [(entries[|entries| - 1].timestamp, entries[|entries| - 1].title)]
  }

  lemma HeadsSnoc(entries: seq<ProgressEntry>, e: ProgressEntry)
    ensures Heads(entries + [e]) == Heads(entries) + [(e.timestamp, e.title)]
  {
    assert (entries + [e])[..|entries|] == entries;
  }

  /** The headers of the emitted and the open entries are the header lines read so far. */
  lemma {:induction false} ScanHeads(lines: seq<string>)
    ensures var st := Scan(lines); Heads(Flush(st.entries, st.current)) == Headers(lines)
    decreases |lines|
  {
    if |lines| > 0 {
      var init := lines[..|lines| - 1];
      var line := lines[|lines| - 1];
      ScanHeads(init);
      var st := Scan(init);
      if st.current.Some? {
        HeadsSnoc(st.entries, st.current.value);
      }
      var h := HeaderMatch(line);
      if h.Some? {
        HeaderNotBlank(line);
        HeadsSnoc(Flush(st.entries, st.current), ProgressEntry(h.value.0, h.value.1, []));
      }
    }
  }

  /**
   * Entries come out in file order, one per header line, each with its
   * header's time stamp and title: no opened entry is lost or emitted twice.
   */
  lemma EntriesMatchHeaders(lines: seq<string>)
    ensures Heads(Entries(lines)) == Headers(lines)
    ensures |Entries(lines)| == |Headers(lines)|
  {
    ScanHeads(lines);
    HeadsLength(Entries(lines));
  }

  lemma {:induction false} HeadsLength(entries: seq<ProgressEntry>)
    ensures |Heads(entries)| == |entries|
    decreases |entries|
  {
    if |entries| > 0 {
      HeadsLength(entries[..|entries| - 1]);
    }
  }

  /** A header closes the open entry, if any, and opens one with its time stamp and title and no details. */
  lemma HeaderLine(st: ParseState, line: string)
    requires HeaderMatch(line).Some?
    ensures var (timestamp, title) := HeaderMatch(line).value;
      Step(st, line) == ParseState(Flush(st.entries, st.current), Some(ProgressEntry(timestamp, title, [])))
    ensures |Step(st, line).entries| == |st.entries| + (if st.current.Some? then 1 else 0)
  {
    HeaderNotBlank(line);
  }

  /** A detail line extends the open entry's details and touches nothing else. */
  lemma DetailLine(st: ParseState, line: string)
    requires !IsBlank(line) && HeaderMatch(line).None?
    requires st.current.Some? && DetailMatch(line).Some?
    ensures var r := Step(st, line);
      r.entries == st.entries && r.current.Some? &&
      r.current.value.timestamp == st.current.value.timestamp && r.current.value.title == st.current.value.title &&
      r.current.value.details == st.current.value.details + [DetailMatch(line).value]
  {
  }

  /** A detail line with no open entry, or any unrecognised line, changes nothing. */
  lemma IgnoredLines(st: ParseState, line: string)
    requires !IsBlank(line) && HeaderMatch(line).None?
    requires st.current.None? || DetailMatch(line).None?
    ensures Step(st, line) == st
  {
  }

  /** A blank line with no open entry changes nothing; with one, it emits it. */
  lemma BlankLine(st: ParseState, line: string)
    requires IsBlank(line)
    ensures st.current.None? ==> Step(st, line) == st
    ensures st.current.Some? ==> Step(st, line) == ParseState(st.entries + [st.current.value], None)
  {
  }
}
