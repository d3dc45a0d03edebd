/**
 * What the supervisor loop reads from the working tree before each
 * iteration: the next 🤖 task of PRD.md (checkTasks) and the tail of
 * progress.txt (getRecentProgress), both in internal/orchestrator/orchestrator.go.
 * A file that cannot be read is None.
 */
module Workspace {
  import opened Wrappers
  import opened Text

  /** The UTF-8 bytes of 🤖 (U+1F916). */
  const Robot: string := "\U{F0}\U{9F}\U{A4}\U{96}"

  const UncheckedPrefix: string := "- [ ] "

  /**
   * `^- \[ \] (.+)$` on one line of a split: the line starts with the
   * unchecked box at column 0 and the capture is the (non-empty) rest.
   */
  function UncheckedCapture(line: string): (r: Option<string>)
    ensures r.Some? <==> HasPrefix(line, UncheckedPrefix) && |line| > |UncheckedPrefix|
    ensures r.Some? ==> line == UncheckedPrefix + r.value && r.value != ""
  {
    if HasPrefix(line, UncheckedPrefix) && |line| > |UncheckedPrefix| then Some(line[|UncheckedPrefix|..]) else None
  }

  /** An unchecked task marked for the agent. */
  predicate IsAiLine(line: string) {
    UncheckedCapture(line).Some? && Contains(line, Robot)
  }

  /** The task text with every 🤖 removed (not yet trimmed). */
  function AiTitle(line: string): string
    requires IsAiLine(line)
  {
    RemoveAll(UncheckedCapture(line).value, Robot)
  }

  /** The agent's open tasks in file order. */
  function AiTasks(lines: seq<string>): (r: seq<string>)
    ensures |r| <= |lines|
    decreases |lines|
  {
    if |lines| == 0 then []
    else
      var last := lines[|lines| - 1];
      AiTasks(lines[..|lines| - 1]) + (if IsAiLine(last) then [AiTitle(last)] else [])
  }

  /** How many lines are open agent tasks. */
  function CountAiLines(lines: seq<string>): nat
    decreases |lines|
  {
    if |lines| == 0 then 0
    else CountAiLines(lines[..|lines| - 1]) + (if IsAiLine(lines[|lines| - 1]) then 1 else 0)
  }

  const MissingPrdTask: string := "Create PRD.md with task list"

  /**
   * `checkTasks`: (shouldContinue, currentTask, remaining). Without PRD.md
   * the agent is asked to write one; with it, the loop continues exactly
   * while some unchecked 🤖 task exists, and works on the first.
   */
  function TaskCheck(prd: Option<string>): (bool, string, nat) {
    match prd
    case None => (true, MissingPrdTask, 0)
    case Some(content) =>
      var tasks := AiTasks(Split(content));
      if |tasks| == 0 then (false, "", 0) else (true, TrimSpace(tasks[0]), |tasks|)
  }

  /** The imperative scan `checkTasks` performs, proved equal to TaskCheck. */
  method CheckTasks(prd: Option<string>) returns (shouldContinue: bool, currentTask: string, remaining: nat)
    ensures (shouldContinue, currentTask, remaining) == TaskCheck(prd)
  {
    if prd.None? {
      return true, MissingPrdTask, 0;
    }
    var lines := Split(prd.value);
    var aiTasks: seq<string> := [];
    var i := 0;
    while i < |lines|
      invariant 0 <= i <= |lines|
      invariant aiTasks == AiTasks(lines[..i])
    {
      var line := lines[i];
      assert lines[..i + 1][..i] == lines[..i];
      var match_ := UncheckedCapture(line);
      if match_.Some? {
        var task := match_.value;
        if Contains(line, Robot) {
          aiTasks := aiTasks + [RemoveAll(task, Robot)];
        }
      }
      i := i + 1;
    }
    assert lines[..|lines|] == lines;
    if |aiTasks| == 0 {
      return false, "", 0;
    }
    return true, TrimSpace(aiTasks[0]), |aiTasks|;
  }

  /** One open task per agent line; none exactly when no line is an open agent task. */
  lemma {:induction false} AiTasksCount(lines: seq<string>)
    ensures |AiTasks(lines)| == CountAiLines(lines)
    ensures |AiTasks(lines)| == 0 <==> forall j :: 0 <= j < |lines| ==> !IsAiLine(lines[j])
    decreases |lines|
  {
    if |lines| > 0 {
      var init := lines[..|lines| - 1];
      AiTasksCount(init);
      if !IsAiLine(lines[|lines| - 1]) && |AiTasks(lines)| == 0 {
        forall j | 0 <= j < |lines| ensures !IsAiLine(lines[j]) {
          if j < |lines| - 1 { assert lines[j] == init[j]; }
        }
      }
      if |AiTasks(lines)| == 0 {
        forall j | 0 <= j < |lines| - 1 ensures !IsAiLine(init[j]) {
          assert init[j] == lines[j];
        }
      }
    }
  }

  /** The first open task is the title of the first open agent line. */
  lemma {:induction false} FirstAiTask(lines: seq<string>, k: nat)
    requires k < |lines| && IsAiLine(lines[k])
    requires forall j :: 0 <= j < k ==> !IsAiLine(lines[j])
    ensures |AiTasks(lines)| > 0 && AiTasks(lines)[0] == AiTitle(lines[k])
    decreases |lines|
  {
    var init := lines[..|lines| - 1];
    if k < |lines| - 1 {
      assert init[k] == lines[k];
      forall j | 0 <= j < k ensures !IsAiLine(init[j]) {
        assert init[j] == lines[j];
      }
      FirstAiTask(init, k);
    } else {
      AiTasksCount(init);
      forall j | 0 <= j < |init| ensures !IsAiLine(init[j]) {
        assert init[j] == lines[j];
      }
    }
  }

  /** No line is an open 🤖 task. */
  predicate NoAiLine(lines: seq<string>) {
    forall j :: 0 <= j < |lines| ==> !IsAiLine(lines[j])
  }

  /** The loop stops exactly when no line is an open 🤖 task; the count is the number of such lines. */
  lemma TaskCheckStops(content: string)
    ensures !TaskCheck(Some(content)).0 <==> NoAiLine(Split(content))
    ensures TaskCheck(Some(content)).2 == CountAiLines(Split(content))
    ensures !TaskCheck(Some(content)).0 ==> TaskCheck(Some(content)).1 == ""
  {
    AiTasksCount(Split(content));
  }

  /** The task worked on is the first open 🤖 line's text, emoji removed and trimmed. */
  lemma TaskCheckFirst(content: string, k: nat)
    requires k < |Split(content)| && IsAiLine(Split(content)[k])
    requires forall j :: 0 <= j < k ==> !IsAiLine(Split(content)[j])
    ensures TaskCheck(Some(content)) == (true, TrimSpace(AiTitle(Split(content)[k])), CountAiLines(Split(content)))
  {
    AiTasksCount(Split(content));
    FirstAiTask(Split(content), k);
  }

  /** Checked lines never count; an unchecked line counts iff it contains the robot. */
  lemma OnlyUncheckedRobotLines(title: string)
    ensures !IsAiLine("- [x] " + title) && !IsAiLine("- [X] " + title)
    ensures !Contains(title, Robot) ==> !IsAiLine(UncheckedPrefix + title)
    ensures UncheckedPrefix + title != UncheckedPrefix ==> 
      (IsAiLine(UncheckedPrefix + title) <==> Contains(UncheckedPrefix + title, Robot))
  {
    assert ("- [x] " + title)[..6] != UncheckedPrefix by { assert ("- [x] " + title)[3] == 'x'; }
    assert ("- [X] " + title)[..6] != UncheckedPrefix by { assert ("- [X] " + title)[3] == 'X'; }
    if title != "" {
      assert (UncheckedPrefix + title)[..6] == UncheckedPrefix;
    }
    forall i | 0 <= i < 6 ensures !OccursAt(UncheckedPrefix + title, Robot, i) {
      if i + 4 <= |UncheckedPrefix + title| {
        assert (UncheckedPrefix + title)[i..i + 4][0] == UncheckedPrefix[i];
      }
    }
    if Contains(UncheckedPrefix + title, Robot) {
      var i :| OccursAt(UncheckedPrefix + title, Robot, i);
      OccursInSuffix(UncheckedPrefix, title, Robot, i);
    }
  }

  const NoProgress: string := "No previous progress recorded."
  const TruncationNote: string := "\n... (truncated)"
  const ProgressLimit: nat := 4000

  /** The last `contextLines` lines of the split (all of them when there are fewer). */
  function Window(lines: seq<string>, contextLines: nat): (w: seq<string>)
    ensures |w| == if contextLines <= |lines| then contextLines else |lines|
    ensures w == lines[|lines| - |w|..]
  {
    var start := if |lines| >= contextLines then |lines| - contextLines else 0;
    lines[start..]
  }

  /**
   * `getRecentProgress`: the last `contextLines` lines of progress.txt,
   * joined again, cut to 4000 bytes plus a truncation note when longer.
   */
  function RecentProgress(progress: Option<string>, contextLines: nat): (r: string)
    ensures progress.None? ==> r == NoProgress
    ensures progress.Some? ==> |r| <= ProgressLimit + |TruncationNote|
  {
    match progress
    case None => NoProgress
    case Some(text) =>
      var recent := Join(Window(Split(text), contextLines));
      if |recent| > ProgressLimit then recent[..ProgressLimit] + TruncationNote else recent
  }

  /** Within the size limit, nothing is cut: the result is the joined window. */
  lemma RecentProgressUncut(text: string, contextLines: nat)
    requires |Join(Window(Split(text), contextLines))| <= ProgressLimit
    ensures RecentProgress(Some(text), contextLines) == Join(Window(Split(text), contextLines))
  {
  }

  /** Within the size limit, the recent progress is a suffix of the file. */
  lemma RecentProgressIsSuffix(text: string, contextLines: nat)
    requires |Join(Window(Split(text), contextLines))| <= ProgressLimit
    ensures var r := RecentProgress(Some(text), contextLines);
      |r| <= |text| && r == text[|text| - |r|..]
  {
    var lines := Split(text);
    var w := Window(lines, contextLines);
    RecentProgressUncut(text, contextLines);
    JoinSplit(text);
    JoinSuffix(lines, |lines| - |w|);
    assert lines[|lines| - |w|..] == w;
    assert Join(lines) == text;
    assert RecentProgress(Some(text), contextLines) == Join(w);
  }

  /** Within the size limit, the result splits back into exactly the window's lines. */
  lemma RecentProgressLines(text: string, contextLines: nat)
    requires contextLines >= 1
    requires |Join(Window(Split(text), contextLines))| <= ProgressLimit
    ensures Split(RecentProgress(Some(text), contextLines)) == Window(Split(text), contextLines)
  {
    var lines := Split(text);
    var w := Window(lines, contextLines);
    RecentProgressUncut(text, contextLines);
    assert RecentProgress(Some(text), contextLines) == Join(w);
    assert |lines| >= 1 && |w| >= 1;
    forall i | 0 <= i < |w| ensures '\n' !in w[i] {
      assert w[i] == lines[|lines| - |w| + i];
    }
    SplitJoin(w);
    assert Split(Join(w)) == w;
  }

  /** A short file with no more lines than the window is returned whole. */
  lemma RecentProgressWholeFile(text: string, contextLines: nat)
    requires |Split(text)| <= contextLines && |text| <= ProgressLimit
    ensures RecentProgress(Some(text), contextLines) == text
  {
    JoinSplit(text);
    assert Window(Split(text), contextLines) == Split(text);
  }

  /** Over the limit, the first 4000 bytes of the window are kept and the note appended. */
  lemma RecentProgressTruncated(text: string, contextLines: nat)
    requires |Join(Window(Split(text), contextLines))| > ProgressLimit
    ensures var r := RecentProgress(Some(text), contextLines);
      r == Join(Window(Split(text), contextLines))[..ProgressLimit] + TruncationNote
  {
  }
}
