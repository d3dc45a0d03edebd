/**
 * The PRD.md task parser (internal/parser/prd.go). The input is the
 * file's lines as the line scanner yields them (None when the file cannot
 * be opened or read), so no line contains a newline.
 */
module Prd {
  import opened Wrappers
  import opened Text

  datatype Task = Task(title: string, complete: bool, line: int)

  /** Lines as a line scanner yields them. */
  predicate ScannerLines(lines: seq<string>) {
    forall i :: 0 <= i < |lines| ==> '\n' !in lines[i]
  }

  /** What a greedy `\s*` leaves: the text after its leading RE2 whitespace. */
  function SkipSpace(s: string): (r: string)
    ensures |r| <= |s| && r == s[|s| - |r|..]
    ensures r != [] ==> !IsRegexSpace(r[0])
    decreases |s|
  {
    if s != [] && IsRegexSpace(s[0]) then SkipSpace(s[1..]) else s
  }

  /** What SkipSpace drops is all RE2 whitespace. */
  lemma {:induction false} SkipSpaceDropsSpace(s: string)
    ensures AllRegexSpace(s[..|s| - |SkipSpace(s)|])
    decreases |s|
  {
    if s != [] && IsRegexSpace(s[0]) {
      var r := SkipSpace(s[1..]);
      SkipSpaceDropsSpace(s[1..]);
      assert s[..|s| - |r|] == [s[0]] + s[1..][..|s| - 1 - |r|];
    }
  }

  /**
   * The capture of a tail `\s*(.+)$`: the greedy `\s*` takes all leading
   * whitespace unless that leaves nothing, in which case it gives back the
   * last character. None when the tail is empty.
   */
  function Capture(rest: string): (r: Option<string>)
    ensures r.Some? <==> rest != ""
    ensures r.Some? ==> r.value != "" && |r.value| <= |rest| && r.value == rest[|rest| - |r.value|..]
  {
    if rest == "" then None
    else
      var t := SkipSpace(rest);
      if t != "" then Some(t) else Some(rest[|rest| - 1..])
  }

  /**
   * The tail `\s*(.+)$` of a pattern after the closing bracket: it needs at
   * least one character. The title is the trimmed capture, which is the
   * trimmed tail (TailTrimsLikeCapture), so the tail is kept whole.
   */
  function Tail(rest: string): (r: Option<string>)
    ensures r.Some? ==> r.value == rest && rest != ""
  {
    if rest == "" then None else Some(rest)
  }

  /** Trimming the regex capture of a tail gives the trimmed tail. */
  lemma TailTrimsLikeCapture(rest: string)
    ensures Tail(rest).Some? <==> Capture(rest).Some?
    ensures Tail(rest).Some? ==> TrimSpace(Capture(rest).value) == TrimSpace(Tail(rest).value)
  {
    if rest != "" {
      var t := SkipSpace(rest);
      var p := rest[..|rest| - |t|];
      SkipSpaceDropsSpace(rest);
      assert rest == p + t;
      assert forall k :: 0 <= k < |p| ==> IsTrimSpace(p[k]) by {
        forall k | 0 <= k < |p| ensures IsTrimSpace(p[k]) { assert p[k] in p; }
      }
      TrimSpaceDropsLeading(p, t);
      if t == "" {
        TrimSpaceEmpty(rest);
        TrimSpaceEmpty(rest[|rest| - 1..]);
      }
    }
  }

  /** A tail of what follows the first character of a tail of `line` is a proper tail of `line`. */
  lemma DashTail(line: string, a: string, t: string)
    requires |a| <= |line| && a == line[|line| - |a|..] && a != []
    requires |t| <= |a[1..]| && t == a[1..][|a[1..]| - |t|..]
    ensures |t| < |line| && t == line[|line| - |t|..]
  {
    TailOfDrop(a, 1, t);
    TailOfTail(line, a, t);
  }

  /** `^[\s]*-\s*`, the start both task patterns share: what follows it. */
  function AfterDash(line: string): (r: Option<string>)
    ensures r.Some? ==> var a := SkipSpace(line); a != [] && a[0] == '-' && r.value == SkipSpace(a[1..])
  {
    var a := SkipSpace(line);
    if a == [] || a[0] != '-' then None else Some(SkipSpace(a[1..]))
  }

  /** What follows the dash is a tail of the line. */
  lemma AfterDashIsTail(line: string)
    requires AfterDash(line).Some?
    ensures |AfterDash(line).value| < |line| && AfterDash(line).value == line[|line| - |AfterDash(line).value|..]
  {
    var a := SkipSpace(line);
    var t := SkipSpace(a[1..]);
    assert a != [] && AfterDash(line) == Some(t);
    DashTail(line, a, t);
  }

  /** `\[\s*\]\s*(.+)$`: the tail after an empty box. */
  function EmptyBoxTail(b: string): (r: Option<string>)
    ensures r.Some? ==> ProperTail(b, r.value)
  {
    if b == [] || b[0] != '[' then None
    else
      var c := SkipSpace(b[1..]);
      if c == [] || c[0] != ']' then None
      else if c[1..] == "" then None
      else
        TailOfDrop(c, 1, c[1..]);
        TailOfDrop(b, 1, c);
        TailOfDrop(b, |b| - |c|, c[1..]);
        Tail(c[1..])
  }

  /** `\[[xX]\]\s*(.+)$`: the tail after a checked box. */
  function CheckedBoxTail(b: string): (r: Option<string>)
    ensures r.Some? ==> ProperTail(b, r.value)
  {
    if |b| < 3 || b[0] != '[' || (b[1] != 'x' && b[1] != 'X') || b[2] != ']' then None
    else Tail(b[3..])
  }

  /** `^[\s]*-\s*\[\s*\]\s*(.+)$`: the tail after the empty box. */
  function IncompleteTail(line: string): (r: Option<string>)
    ensures r.Some? ==> ProperTail(line, r.value)
  {
    match AfterDash(line)
    case None => None
    case Some(b) =>
      var r := EmptyBoxTail(b);
      if r.Some? then AfterDashIsTail(line); ProperTailOfTail(line, b, r.value); r else r
  }

  /** `^[\s]*-\s*\[[xX]\]\s*(.+)$`: the tail after the checked box. */
  function CompleteTail(line: string): (r: Option<string>)
    ensures r.Some? ==> ProperTail(line, r.value)
  {
    match AfterDash(line)
    case None => None
    case Some(b) =>
      var r := CheckedBoxTail(b);
      if r.Some? then AfterDashIsTail(line); ProperTailOfTail(line, b, r.value); r else r
  }

  /** No box is both empty and checked. */
  lemma BoxesDisjoint(b: string)
    ensures !(EmptyBoxTail(b).Some? && CheckedBoxTail(b).Some?)
  {
    if |b| >= 3 && b[0] == '[' && (b[1] == 'x' || b[1] == 'X') {
      SkipSpaceStops(b[1..]);
      assert SkipSpace(b[1..])[0] == b[1];
    }
  }

  /** No line is both an open and a checked task, so the order of the two tests is immaterial. */
  lemma PatternsDisjoint(line: string)
    ensures !(IncompleteTail(line).Some? && CompleteTail(line).Some?)
  {
    if AfterDash(line).Some? {
      BoxesDisjoint(AfterDash(line).value);
    }
  }

  /** `\s*` matches nothing before a non-space character. */
  lemma SkipSpaceStops(s: string)
    requires s != [] && !IsRegexSpace(s[0])
    ensures SkipSpace(s) == s
  {
  }

  /** Leading RE2 whitespace is all a greedy `\s*` consumes. */
  lemma {:induction false} SkipSpaceDropsLeading(p: string, s: string)
    requires AllRegexSpace(p)
    ensures SkipSpace(p + s) == SkipSpace(s)
    decreases |p|
  {
    if p != [] {
      var q := p + s;
      assert q[0] == p[0] && p[0] in p;
      assert q[1..] == p[1..] + s;
      assert forall c | c in p[1..] :: c in p;
      SkipSpaceDropsLeading(p[1..], s);
    } else {
      assert p + s == s;
    }
  }

  /** A single space is RE2 whitespace. */
  lemma SpaceIsRegexSpace()
    ensures AllRegexSpace([' '])
  {
    assert forall c | c in [' '] :: c == ' ';
  }

  /** After one space, `\s*(.+)$` captures a text that does not start with whitespace. */
  lemma CaptureAfterSpace(text: string)
    requires text != "" && !IsRegexSpace(text[0])
    ensures Capture([' '] + text) == Some(text)
  {
    SpaceIsRegexSpace();
    SkipSpaceDropsLeading([' '], text);
    SkipSpaceStops(text);
  }

  /** After `- `, `\s*(.+)$` captures a text that does not start with whitespace. */
  lemma CaptureAfterDash(text: string)
    requires text != "" && !IsRegexSpace(text[0])
    ensures ("- " + text)[0] == '-' && Capture(("- " + text)[1..]) == Some(text)
  {
    assert ("- " + text)[1..] == [' '] + text;
    CaptureAfterSpace(text);
  }

  /** After indentation and `- `, AfterDash yields what follows, if it does not start with whitespace. */
  lemma AfterIndentedDash(indent: string, box: string)
    requires AllRegexSpace(indent) && box != [] && !IsRegexSpace(box[0])
    ensures AfterDash(indent + ("- " + box)) == Some(box)
  {
    var rest := "- " + box;
    SkipSpaceDropsLeading(indent, rest);
    SkipSpaceStops(rest);
    assert rest[1..] == [' '] + box;
    SpaceIsRegexSpace();
    SkipSpaceDropsLeading([' '], box);
    SkipSpaceStops(box);
  }

  /** `[ ] title` is an empty box followed by ` title`. */
  lemma EmptyBoxShape(title: string)
    ensures EmptyBoxTail("[ ] " + title) == Some([' '] + title)
  {
    var box := "[ ] " + title;
    var c := "] " + title;
    assert box[1..] == [' '] + c && c[1..] == [' '] + title;
    SpaceIsRegexSpace();
    SkipSpaceDropsLeading([' '], c);
    SkipSpaceStops(c);
  }

  /** `[x] title` and `[X] title` are a checked box followed by ` title`, and not an empty box. */
  lemma CheckedBoxShape(mark: char, title: string)
    requires mark == 'x' || mark == 'X'
    ensures CheckedBoxTail("[" + [mark] + "] " + title) == Some([' '] + title)
    ensures EmptyBoxTail("[" + [mark] + "] " + title).None?
  {
    var box := "[" + [mark] + "] " + title;
    assert box[1] == mark && box[3..] == [' '] + title;
    BoxesDisjoint(box);
  }

  /** Trimming a title after one space is trimming the title. */
  lemma TrimAfterSpace(title: string)
    ensures TrimSpace([' '] + title) == TrimSpace(title)
  {
    TrimSpaceDropsLeading([' '], title);
  }

  /** `indent + "- [ ] " + title` regrouped as indentation, dash and box. */
  lemma OpenLayout(indent: string, title: string)
    ensures indent + "- [ ] " + title == indent + ("- " + ("[ ] " + title))
  {
    ConcatAssoc(indent, "- [ ] ", title);
    assert "- [ ] " + title == "- " + ("[ ] " + title);
  }

  /** `indent + "- [" + [mark] + "] " + title` regrouped as indentation, dash and box. */
  lemma CheckedLayout(indent: string, mark: char, title: string)
    ensures indent + "- [" + [mark] + "] " + title == indent + ("- " + ("[" + [mark] + "] " + title))
  {
    var line := indent + "- [" + [mark] + "] " + title;
    var regrouped := indent + ("- " + ("[" + [mark] + "] " + title));
    assert |line| == |regrouped|;
    assert forall k | 0 <= k < |line| :: line[k] == regrouped[k];
  }

  /** An indented `- [ ] title` line is an open task titled by the trimmed title. */
  lemma OpenTaskLine(indent: string, title: string, n: int)
    requires AllRegexSpace(indent)
    ensures LineTask(indent + "- [ ] " + title, n) == Some(Task(TrimSpace(title), false, n))
  {
    OpenLayout(indent, title);
    AfterIndentedDash(indent, "[ ] " + title);
    EmptyBoxShape(title);
    TrimAfterSpace(title);
  }

  /** An indented `- [x] title` or `- [X] title` line is a completed task. */
  lemma CheckedTaskLine(indent: string, mark: char, title: string, n: int)
    requires AllRegexSpace(indent)
    requires mark == 'x' || mark == 'X'
    ensures LineTask(indent + "- [" + [mark] + "] " + title, n) == Some(Task(TrimSpace(title), true, n))
  {
    CheckedLayout(indent, mark, title);
    AfterIndentedDash(indent, "[" + [mark] + "] " + title);
    CheckedBoxShape(mark, title);
    TrimAfterSpace(title);
  }

  /** The task a line (1-based number `n`) contributes, if any. */
  function LineTask(line: string, n: int): (r: Option<Task>)
    ensures r.Some? ==> r.value.line == n
    ensures r.Some? <==> IncompleteTail(line).Some? || CompleteTail(line).Some?
    ensures r.Some? ==> (r.value.complete <==> IncompleteTail(line).None?)
  {
    match IncompleteTail(line)
    case Some(rest) => Some(Task(TrimSpace(rest), false, n))
    case None =>
      match CompleteTail(line)
      case Some(rest) => Some(Task(TrimSpace(rest), true, n))
      case None => None
  }

  /** Number of lines that are tasks. */
  function CountTaskLines(lines: seq<string>): nat
    decreases |lines|
  {
    if |lines| == 0 then 0
    else CountTaskLines(lines[..|lines| - 1]) + (if LineTask(lines[|lines| - 1], |lines|).Some? then 1 else 0)
  }

  /**
   * The tasks of a file, in document order: line numbers rise strictly
   * within 1..|lines|, and there is one task per task line.
   */
  function PrdTasks(lines: seq<string>): (tasks: seq<Task>)
    ensures |tasks| == CountTaskLines(lines) && |tasks| <= |lines|
    ensures forall i :: 0 <= i < |tasks| ==> 1 <= tasks[i].line <= |lines|
    ensures forall i, j :: 0 <= i < j < |tasks| ==> tasks[i].line < tasks[j].line
    decreases |lines|
  {
    if |lines| == 0 then []
    else
      var before := PrdTasks(lines[..|lines| - 1]);
      match LineTask(lines[|lines| - 1], |lines|)
      case None => before
      case Some(t) => before + [t]
  }

  /** `t` is what line `t.line` of `lines` yields. */
  predicate FromLine(lines: seq<string>, t: Task) {
    1 <= t.line <= |lines| && LineTask(lines[t.line - 1], t.line) == Some(t)
  }

  /** A task read from a prefix of the lines is read from the whole file as well. */
  lemma FromLineExtend(lines: seq<string>, k: nat, t: Task)
    requires k <= |lines| && FromLine(lines[..k], t)
    ensures FromLine(lines, t)
  {
    assert lines[..k][t.line - 1] == lines[t.line - 1];
  }

  /** Every task is what its own line yields under its own number. */
  lemma {:induction false} PrdTasksFromLines(lines: seq<string>)
    ensures forall i :: 0 <= i < |PrdTasks(lines)| ==> FromLine(lines, PrdTasks(lines)[i])
    decreases |lines|
  {
    if |lines| > 0 {
      var init := lines[..|lines| - 1];
      PrdTasksFromLines(init);
      var before := PrdTasks(init);
      var tasks := PrdTasks(lines);
      var last := LineTask(lines[|lines| - 1], |lines|);
      assert tasks == if last.Some? then before + [last.value] else before;
      forall i | 0 <= i < |tasks| ensures FromLine(lines, tasks[i]) {
        if i < |before| {
          assert tasks[i] == before[i];
          FromLineExtend(lines, |lines| - 1, before[i]);
        }
      }
    }
  }

  /** Reading one more line adds that line's task, if it has one. */
  lemma PrdTasksStep(lines: seq<string>, k: nat)
    requires 0 < k <= |lines|
    ensures var e := LineTask(lines[k - 1], k);
      PrdTasks(lines[..k]) == if e.Some? then PrdTasks(lines[..k - 1]) + [e.value] else PrdTasks(lines[..k - 1])
  {
    assert lines[..k][..k - 1] == lines[..k - 1];
  }

  /** `ParsePRD`: the scanner loop with its line counter; None when the file cannot be read. */
  method ParsePRD(file: Option<seq<string>>) returns (tasks: Option<seq<Task>>)
    requires file.Some? ==> ScannerLines(file.value)
    ensures tasks.None? <==> file.None?
    ensures file.Some? ==> tasks == Some(PrdTasks(file.value))
  {
    if file.None? {
      return None;
    }
    var lines := file.value;
    var acc: seq<Task> := [];
    var lineNum := 0;
    while lineNum < |lines|
      invariant 0 <= lineNum <= |lines|
      invariant acc == PrdTasks(lines[..lineNum])
    {
      lineNum := lineNum + 1;
      var line := lines[lineNum - 1];
      ghost var expected := LineTask(line, lineNum);
      PrdTasksStep(lines, lineNum);
      var incomplete := IncompleteTail(line);
      if incomplete.Some? {
        assert expected == Some(Task(TrimSpace(incomplete.value), false, lineNum));
        acc := acc + [Task(TrimSpace(incomplete.value), false, lineNum)];
        continue;
      }
      var complete := CompleteTail(line);
      if complete.Some? {
        assert expected == Some(Task(TrimSpace(complete.value), true, lineNum));
        acc := acc + [Task(TrimSpace(complete.value), true, lineNum)];
      } else {
        assert expected.None?;
      }
    }
    assert lines[..|lines|] == lines;
    return Some(acc);
  }

  /** Number of completed tasks. */
  function CompletedCount(tasks: seq<Task>): (n: nat)
    ensures n <= |tasks|
    decreases |tasks|
  {
    if |tasks| == 0 then 0
    else CompletedCount(tasks[..|tasks| - 1]) + (if tasks[|tasks| - 1].complete then 1 else 0)
  }

  /** All tasks are complete exactly when the completed count is the number of tasks. */
  lemma {:induction false} CompletedCountAll(tasks: seq<Task>)
    ensures CompletedCount(tasks) == |tasks| <==> forall i :: 0 <= i < |tasks| ==> tasks[i].complete
    decreases |tasks|
  {
    if |tasks| > 0 {
      var init := tasks[..|tasks| - 1];
      CompletedCountAll(init);
      if CompletedCount(tasks) == |tasks| {
        forall i | 0 <= i < |tasks| ensures tasks[i].complete {
          if i < |tasks| - 1 { assert tasks[i] == init[i]; }
        }
      }
      if forall i :: 0 <= i < |tasks| ==> tasks[i].complete {
        forall i | 0 <= i < |init| ensures init[i].complete {
          assert init[i] == tasks[i];
        }
      }
    }
  }

  method CountCompleted(tasks: seq<Task>) returns (count: nat)
    ensures count == CompletedCount(tasks)
  {
    count := 0;
    var i := 0;
    while i < |tasks|
      invariant 0 <= i <= |tasks|
      invariant count == CompletedCount(tasks[..i])
    {
      assert tasks[..i + 1][..i] == tasks[..i];
      if tasks[i].complete {
        count := count + 1;
      }
      i := i + 1;
    }
    assert tasks[..|tasks|] == tasks;
  }

  /** The index of the first incomplete task, if any. */
  function FirstIncomplete(tasks: seq<Task>): (r: Option<nat>)
    ensures r.None? <==> forall i :: 0 <= i < |tasks| ==> tasks[i].complete
    ensures r.Some? ==> r.value < |tasks| && !tasks[r.value].complete
    ensures r.Some? ==> forall i :: 0 <= i < r.value ==> tasks[i].complete
    decreases |tasks|
  {
    if |tasks| == 0 then None
    else if !tasks[0].complete then Some(0)
    else match FirstIncomplete(tasks[1..])
      case None => None
      case Some(i) => Some(i + 1)
  }

  /** `GetCurrentTask`: the first incomplete task, None (Go's nil) when every task is done. */
  method GetCurrentTask(tasks: seq<Task>) returns (current: Option<Task>)
    ensures current.None? <==> forall i :: 0 <= i < |tasks| ==> tasks[i].complete
    ensures current.Some? ==> current.value == tasks[FirstIncomplete(tasks).value]
  {
    var i := 0;
    while i < |tasks|
      invariant 0 <= i <= |tasks|
      invariant forall j :: 0 <= j < i ==> tasks[j].complete
    {
      if !tasks[i].complete {
        return Some(tasks[i]);
      }
      i := i + 1;
    }
    return None;
  }
}
