# ralph-setup supervisor, modelled in Dafny

ralph-setup runs an AI coding CLI in a loop. It can drive Claude or Codex.
Each iteration:

- picks the first unchecked 🤖 task from `PRD.md`;
- starts the CLI with a prompt;
- reads the CLI's streamed JSON output and normalizes it into events;
- tracks the subagent (tool) invocations it sees;
- classifies the iteration as complete, blocked or failed from the `<promise>COMPLETE</promise>` and `<promise>BLOCKED</promise>` tokens.

The loop stops in any of these cases:

- no task is left;
- three iterations in a row have failed;
- the iteration limit is reached;
- a stop is requested.

A lock file is meant to keep a second supervisor from starting beside a live one (as written it never does; see Findings).

This project models that decision logic. The operating system, JSON, regular expressions and the terminal UI are replaced by plain inputs:

- the lines of a file are `Option<seq<string>>`, where `None` means the file is missing;
- a decoded JSON line is `Decoded<T> = Json(value) | Malformed`;
- process liveness is a predicate `alive: int -> bool`;
- clocks and ids are integers and strings passed in;
- each regular expression is a hand-written predicate.

One `char` stands for one byte. Go slices and measures these strings in bytes, so `Truncate`, `WrapText` and the 4000-byte progress cap all count bytes.

Modules follow the Go packages:

| module | models |
|---|---|
| `Wrappers`, `Text` | `Option`; the `strings` helpers the code relies on (`TrimSpace`, `Split`/`Join` on `"\n"`, `Contains`, `ReplaceAll`) |
| `Config` | `internal/config/cli.go` |
| `CliEvents`, `ClaudeCli`, `CodexCli`, `Cli` | `internal/cli/interface.go`, `claude.go`, `codex.go` |
| `Types` | `internal/orchestrator/types.go` |
| `Tracer` | the subagent tracer: `truncate`, `extractToolInputSummary`, `processNormalizedEvent`, `completeSubagent` |
| `Workspace` | `checkTasks` and `getRecentProgress` |
| `Iteration` | stdout line handling and classification in `runIteration` |
| `Loop` | `runLoop` as a state machine over rounds; one round is one pass's inputs |
| `Orchestrator` | the `Orchestrator` object: `initSession`, `Start`, `Stop`, and the imperative loop and iteration proved against `Loop` and `Iteration` |
| `Prd`, `Progress` | `internal/parser/prd.go`, `progress.go` |
| `Viewer` | the deterministic helpers of `internal/model/model.go` |

The imperative code keeps its form:

- The `Orchestrator.Orchestrator` class has `modifies` clauses.
- The scanner loops of `ParsePRD`, `ParseProgress`, `checkTasks`, `CountCompleted`, `GetCurrentTask`, `updateSubagent`, `allTasksComplete` and `itoa` are `while` loops with invariants.
- Each method's `ensures` ties its result or new state to a specification function, and the lemmas state the promised properties of that function.

## Model

| member | source | states |
|---|---|---|
| Config.FirstNonEmpty | internal/config/cli.go:43-73 | the result is the first non-empty candidate, and the default when every candidate is empty |
| Config.FirstOfThree | internal/config/cli.go:43-73 | flag beats env, env beats project file, project file beats default, each taking effect only when non-empty |
| Config.LoadCLIConfig | internal/config/cli.go:43-73 | backend is flag > RALPH_CLI > project `cli` > `claude`; model is flag > RALPH_MODEL > project `model` > `""`; command and extra args stay empty |
| Config.MissingProjectFileIsNeutral | internal/config/cli.go:47-55 | a missing or malformed project file leaves backend and model to flag and env alone, as if the project layer did not exist |
| Config.String | internal/config/cli.go:97-99 | the backend's text is its underlying string |
| Config.DefaultCLIConfig | internal/config/cli.go:25-30 | the default is the valid Claude backend with no model, no command override and no extra arguments |
| Config.IsValid | internal/config/cli.go:92-94 | a backend is valid iff it is Claude or Codex |
| CliEvents.NamesDistinct | internal/cli/interface.go:42-60 | the six normalized event types have pairwise distinct names |
| CliEvents.ContainsCompletionToken | internal/cli/interface.go:81-83 | holds iff `<promise>COMPLETE</promise>` occurs at some position of the text |
| CliEvents.ContainsBlockedToken | internal/cli/interface.go:86-88 | holds iff `<promise>BLOCKED</promise>` occurs at some position of the text |
| CliEvents.TokensIndependent | internal/cli/interface.go:75-78 | the two tokens differ and neither contains the other |
| ClaudeCli.BuildCommand | internal/cli/claude.go:32-60 | program is Command or `claude`; args are the four fixed flags, then `--model M` iff M is non-empty, then the extra args in order; dir is set iff workDir is non-empty |
| ClaudeCli.PromptNotInCommand | internal/cli/claude.go:32-60 | the command does not depend on the prompt: the prompt is not passed in the arguments |
| ClaudeCli.ParseEvent | internal/cli/claude.go:94-139 | no event iff the line does not decode; assistant/tool_use/tool_result/error map to message/tool_start/tool_end/error in both directions; never turn_complete; timestamp is the read time |
| ClaudeCli.AssistantIsMessage | internal/cli/claude.go:106-110 | content is Message.Content, or empty without a message |
| ClaudeCli.ToolUseIsToolStart | internal/cli/claude.go:112-118 | id, name and input come from ToolUse, and stay empty without one |
| ClaudeCli.ToolResultIsToolEnd | internal/cli/claude.go:120-126 | tool id is ToolUseID; content and the error flag are copied from the result |
| ClaudeCli.ErrorAndOtherContent | internal/cli/claude.go:128-136 | `error` carries the top-level error text and sets the error flag; any other type is unknown, with the top-level content and no error flag |
| CodexCli.BuildCommand | internal/cli/codex.go:32-60 | program is Command or `codex`; args are `exec --json --dangerously-bypass-approvals-and-sandbox`, then `--model M` iff M is non-empty, then the extra args |
| CodexCli.ParseItemStarted | internal/cli/codex.go:139-152 | a command or tool item becomes tool_start with the item id, taking name and input only when a command is present; any other item, or none, leaves the event unchanged |
| CodexCli.ParseItemCompleted | internal/cli/codex.go:155-173 | agent_message becomes message with the content text (or empty); a tool item becomes tool_end with its output, flagged as an error iff its status is `"error"`; anything else is unchanged |
| CodexCli.ParseEvent | internal/cli/codex.go:105-136 | no event iff the line does not decode; turn.completed maps to turn_complete and error to error, both ways; tool kinds only come from item events; unrecognized types stay unknown |
| CodexCli.ItemStartedMapping | internal/cli/codex.go:111-119 | item.started gives tool_start iff it carries a command or tool item; otherwise the event stays a blank unknown |
| CodexCli.ItemCompletedError | internal/cli/codex.go:167-171 | a completed tool item becomes tool_end with its output as content, flagged as an error iff its status is `"error"` |
| Cli.NewCLIRunner | internal/cli/interface.go:63-72 | the Codex adapter iff the backend is `codex`; the Claude adapter otherwise, including for invalid values; the config is kept |
| Cli.ParseEvent | internal/cli/interface.go:12-23 | no event iff the selected backend's own decoding of the line failed; any event carries the line's read time |
| Cli.RunnerMatchesBackend | internal/cli/interface.go:63-72 | for a valid backend the adapter's name is the backend, and for an invalid one it is `claude` (IsValid holds iff `claude` or `codex`); both stream JSON |
| Cli.ProgramIsCommandOrDefault | internal/cli/interface.go:63-72 | the chosen adapter runs Command, or its own name when Command is empty |
| Types.TokensAgree | internal/orchestrator/types.go:113-116 | the orchestrator's tokens equal the cli package's |
| Types.StatusNamesDistinct | internal/orchestrator/types.go:51-110 | session, subagent and iteration statuses each have distinct names |
| Tracer.Truncate | internal/orchestrator/orchestrator.go:602-607 | short strings are unchanged; longer ones keep the first maxLen-3 bytes plus `...`, exactly maxLen long |
| Tracer.TruncateIdempotent | internal/orchestrator/orchestrator.go:602-607 | truncating twice is truncating once |
| Tracer.ExtractToolInputSummary | internal/orchestrator/orchestrator.go:468-484 | nil input gives `""`; the summary is at most 100 bytes unless it is the untruncated `file_path` |
| Tracer.SummaryPriority | internal/orchestrator/orchestrator.go:474-483 | string `command` truncated to 100, else string `file_path` untruncated, else string `prompt` truncated to 100, else `""` |
| Tracer.StartTrace | internal/orchestrator/orchestrator.go:427-436 | a new trace has the event's id and name, is running, starts at the event time and has no end time |
| Tracer.FirstWithId | internal/orchestrator/orchestrator.go:448-449 | the index found is the first one with that id, and no index means no trace has it |
| Tracer.Finished | internal/orchestrator/orchestrator.go:450-460 | identity fields kept; end time set; duration is end minus start; output is the tool's output truncated to 200 bytes; error iff isError, else complete |
| Tracer.CompleteFirst | internal/orchestrator/orchestrator.go:447-465 | only the first trace with the id is finished, all others are untouched, and the length is kept; an unknown id changes nothing |
| Tracer.ApplyEventFrame | internal/orchestrator/orchestrator.go:422-444 | tool_start appends exactly its trace; tool_end changes no id or length; every other event changes nothing |
| Tracer.ApplyEventKeepsWellFormed | internal/orchestrator/orchestrator.go:422-465 | every event keeps each trace well formed: never pending; a running trace has no end time, duration or output; a complete or error trace has its end time, a matching duration and at most 200 bytes of output |
| Tracer.Traced | internal/orchestrator/orchestrator.go:314-391 | the traces of an iteration, started from the emptied list, are all well formed |
| Tracer.TracedLength | internal/orchestrator/orchestrator.go:427-436 | there is exactly one trace per tool_start event |
| Workspace.UncheckedCapture | internal/orchestrator/orchestrator.go:527 | matches iff the line starts with `- [ ] ` and has more after it; the capture is that rest |
| Workspace.CheckTasks | internal/orchestrator/orchestrator.go:517-546 | the scan loop computes TaskCheck: a missing PRD gives continue with the create-PRD task, otherwise the first 🤖 task and the count of them |
| Workspace.AiTasksCount | internal/orchestrator/orchestrator.go:532-539 | one collected task per matching 🤖 line, and none iff no line matches |
| Workspace.FirstAiTask | internal/orchestrator/orchestrator.go:532-545 | the first task collected comes from the first matching 🤖 line in document order |
| Workspace.TaskCheckStops | internal/orchestrator/orchestrator.go:541-545 | stop iff no line is a 🤖 task; the count is the 🤖 line count; stopping gives an empty task |
| Workspace.TaskCheckFirst | internal/orchestrator/orchestrator.go:532-545 | the task is the first 🤖 line's text with 🤖 removed and trimmed |
| Workspace.OnlyUncheckedRobotLines | internal/orchestrator/orchestrator.go:527-538 | checked lines never count, and an unchecked line counts iff its text contains 🤖 |
| Workspace.Window | internal/orchestrator/orchestrator.go:555-561 | the last min(ContextLines, line count) lines |
| Workspace.RecentProgress | internal/orchestrator/orchestrator.go:549-570 | a missing file gives the no-progress text; otherwise the result is at most 4000 bytes plus the truncation note |
| Workspace.RecentProgressIsSuffix | internal/orchestrator/orchestrator.go:555-562 | an uncut result is a suffix of the file |
| Workspace.RecentProgressLines | internal/orchestrator/orchestrator.go:555-562 | an uncut result splits back into exactly the window of the last ContextLines lines |
| Workspace.RecentProgressWholeFile | internal/orchestrator/orchestrator.go:549-570 | a short file with few lines is returned unchanged |
| Workspace.RecentProgressTruncated | internal/orchestrator/orchestrator.go:564-567 | a long window becomes its first 4000 bytes followed by `\n... (truncated)` |
| Iteration.Items | internal/orchestrator/orchestrator.go:362-366 | each stdout line is offered to the adapter once, in order |
| Iteration.Classify | internal/orchestrator/orchestrator.go:410-416 | an iteration never yields timeout |
| Iteration.Outcome | internal/orchestrator/orchestrator.go:306-419 | the result carries the session's iteration, task and log reference, and the classification of its stdout |
| Iteration.ScanStep | internal/orchestrator/orchestrator.go:363-390 | one more line sets each flag iff it was set or the line signals it, and adds its event iff the line decoded |
| Iteration.TracedStep | internal/orchestrator/orchestrator.go:366-370 | the traces after one more event are the previous traces with that event applied |
| Iteration.ClassifyMeaning | internal/orchestrator/orchestrator.go:410-416 | complete iff COMPLETE was seen; blocked iff BLOCKED but not COMPLETE was seen; failed iff neither was seen or the child did not start |
| Iteration.CompletionBeatsBlocked | internal/orchestrator/orchestrator.go:410-416 | a line carrying both tokens makes the iteration complete |
| Iteration.OnlyMessagesSignal | internal/orchestrator/orchestrator.go:366-389 | tool, turn, unknown and error events never set a flag; only message content and undecodable lines do |
| Iteration.ClassifyMonotone | internal/orchestrator/orchestrator.go:372-389 | more output never moves the status down from complete to blocked to failed |
| Iteration.OutcomeTracesWellFormed | internal/orchestrator/orchestrator.go:338-341 | the reported traces are well formed, and empty when the child could not start |
| Loop.StopEffect | internal/orchestrator/orchestrator.go:153-172 | no-op unless running; otherwise running cleared, stop set and session interrupted, with nothing else touched |
| Loop.Run | internal/orchestrator/orchestrator.go:243-302 | the loop always ends with a reason |
| Loop.PassAdvances | internal/orchestrator/orchestrator.go:244-250 | each pass bumps the iteration by one, unless it saw the stop |
| Loop.RecordCounts | internal/orchestrator/orchestrator.go:276-295 | complete adds a completed task and resets the streak, blocked adds one handoff and resets it, failed increments it and ends the loop as failed at three |
| Loop.StopKeeps | internal/orchestrator/orchestrator.go:153-172 | a stop between passes keeps the loop invariant |
| Loop.WorkNoTasks | internal/orchestrator/orchestrator.go:250-259 | with no task, the counter is still bumped and the session ends completed without running an iteration |
| Loop.WorkIterates | internal/orchestrator/orchestrator.go:261-295 | with a task, one result is recorded and the invariant is kept or the loop ends failed with three failures in a row |
| Loop.PassStep | internal/orchestrator/orchestrator.go:243-295 | one pass keeps the invariant or ends the loop with an honest reason |
| Loop.LimitEnds | internal/orchestrator/orchestrator.go:301-302 | reaching the limit ends completed |
| Loop.RunOutcome | internal/orchestrator/orchestrator.go:235-303 | completions, handoffs and iteration numbers are counted exactly; failed iff three failures in a row; interrupted iff a stop was seen; completed iff no task was left or the limit was reached |
| Loop.RunWithinLimit | internal/orchestrator/orchestrator.go:243 | the iteration never exceeds MaxIterations |
| Loop.FinalStatus | internal/orchestrator/orchestrator.go:256-302 | a fresh loop ends completed, failed or interrupted, never running or recovered |
| Orchestrator.DefaultConfig | internal/orchestrator/orchestrator.go:34-44 | 100 iterations, a 3 s delay, 20 context lines, the dot-file names and the Claude backend |
| Orchestrator.CheckLock | internal/orchestrator/orchestrator.go:177-197 | a lock is held iff its PID is positive and alive; any other lock is stale; no file means no lock |
| Orchestrator.AsWrittenLockNeverHeld | internal/orchestrator/orchestrator.go:186-194 | with the nil-signal probe, no lock is ever held |
| Orchestrator.AsWrittenReclaimsLiveLock | internal/orchestrator/orchestrator.go:186-194 | the lock of a live process 4242 is held under a true probe but stale under the nil-signal probe |
| Orchestrator.MalformedLockIsStale | internal/orchestrator/orchestrator.go:179-185 | a malformed lock reads as PID 0 and is stale whatever is alive |
| Orchestrator.NewSession | internal/orchestrator/orchestrator.go:200-208 | a new session is running at iteration 0 with nothing completed, stamped with the start time |
| Orchestrator.Orchestrator.constructor | internal/orchestrator/orchestrator.go:68-75 | a new orchestrator has the adapter its config names, no session and is not running |
| Orchestrator.Orchestrator.InitSession | internal/orchestrator/orchestrator.go:175-222 | a held lock gives an error and no session; otherwise a new session is made and this process's lock is written, or none is left when that write fails (its error is discarded); a failed save is an error that keeps the session |
| Orchestrator.Orchestrator.Start | internal/orchestrator/orchestrator.go:129-150 | errors if already running; otherwise sets running before the session step and leaves it set even when that step fails |
| Orchestrator.Orchestrator.Stop | internal/orchestrator/orchestrator.go:153-172 | a no-op unless running; otherwise running cleared, stop signalled and the session marked interrupted |
| Orchestrator.Orchestrator.CompleteSubagent | internal/orchestrator/orchestrator.go:447-465 | the in-place update is CompleteFirst of the old list |
| Orchestrator.Orchestrator.ProcessNormalizedEvent | internal/orchestrator/orchestrator.go:422-444 | the trace list becomes ApplyEvent of the old list |
| Orchestrator.Orchestrator.ScanLine | internal/orchestrator/orchestrator.go:363-390 | one stdout line ORs its signals into the flags and applies its event, if decoded, to the traces |
| Orchestrator.Orchestrator.RunIteration | internal/orchestrator/orchestrator.go:306-419 | the scan loop returns Outcome of the stdout items, and the live traces equal the reported ones |
| Orchestrator.Orchestrator.WriteHandoff | internal/orchestrator/orchestrator.go:573-583 | one handoff block naming the task and log is appended |
| Orchestrator.Orchestrator.RecordResult | internal/orchestrator/orchestrator.go:276-295 | the switch on the result does what Loop.Record does |
| Orchestrator.Orchestrator.PassOnce | internal/orchestrator/orchestrator.go:243-295 | one pass of the loop body does what Loop.Pass does |
| Orchestrator.Orchestrator.WorkOnce | internal/orchestrator/orchestrator.go:250-295 | the work after the stop poll does what Loop.Work does |
| Orchestrator.Orchestrator.IterateOnce | internal/orchestrator/orchestrator.go:273-295 | running the iteration and recording it does what Loop.Record of Outcome does |
| Orchestrator.Orchestrator.RunLoop | internal/orchestrator/orchestrator.go:235-303 | the imperative loop ends in the state and with the reason Loop.Run gives, and removes the lock |
| Prd.SkipSpace | internal/parser/prd.go:19 | a greedy `\s*`: the result is a tail of the input that does not start with regex whitespace |
| Prd.SkipSpaceDropsSpace | internal/parser/prd.go:19 | what SkipSpace drops is all regex whitespace, so it drops exactly the leading run |
| Prd.IncompleteTail | internal/parser/prd.go:19 | a match of the incomplete pattern leaves a non-empty proper tail of the line after the box |
| Prd.CompleteTail | internal/parser/prd.go:21 | a match of the complete pattern leaves a non-empty proper tail of the line after the box |
| Prd.OpenTaskLine | internal/parser/prd.go:19 | any indented `- [ ] title` line is an open task whose title is the trimmed title |
| Prd.CheckedTaskLine | internal/parser/prd.go:21 | any indented `- [x] title` or `- [X] title` line is a completed task whose title is the trimmed title |

| Prd.PatternsDisjoint | internal/parser/prd.go:19-21 | no line matches both the incomplete and the complete pattern |
| Prd.LineTask | internal/parser/prd.go:40-57 | a line gives a task iff it matches a pattern, with its line number, and is complete iff it does not match the incomplete pattern |
| Prd.PrdTasks | internal/parser/prd.go:34-58 | one task per matching line, with 1-based line numbers that are in range and strictly increasing |
| Prd.PrdTasksFromLines | internal/parser/prd.go:36-57 | every task is what LineTask makes of its own line |
| Prd.ParsePRD | internal/parser/prd.go:25-65 | a missing file is an error; otherwise the scan loop yields PrdTasks of the lines |
| Prd.CompletedCount | internal/parser/prd.go:68-76 | at most the number of tasks |
| Prd.CompletedCountAll | internal/parser/prd.go:68-76 | equals the number of tasks iff every task is complete |
| Prd.CountCompleted | internal/parser/prd.go:68-76 | the counting loop yields CompletedCount |
| Prd.FirstIncomplete | internal/parser/prd.go:79-86 | the first incomplete task's index, and none iff all are complete |
| Prd.GetCurrentTask | internal/parser/prd.go:79-86 | the early-return loop yields the first incomplete task, and nil iff all are complete |
| Prd.Capture | internal/parser/progress.go:19 | the RE2 capture of `\s*(.+)$`, used for progress titles and details: non-empty iff anything follows, a suffix of the rest |
| Prd.TailTrimsLikeCapture | internal/parser/prd.go:41-43 | the trimmed task title is the same whether taken from the regex capture or from the whole tail after the box |
| Progress.HeaderNotBlank | internal/parser/progress.go:40-49 | a header line is never blank, so the blank test's precedence does not hide headers |
| Progress.HeaderMatch | internal/parser/progress.go:19 | a header starts with `[`; its time stamp is the text just after `[`, at least 16 characters, and is followed by `]`; its title is a non-empty proper tail of the line |
| Progress.ClockTail | internal/parser/progress.go:19 | the `HH:MM] title` part of a header gives a time stamp that ends at the closing bracket and a title that is a non-empty proper tail of the line |
| Progress.HeaderMatchShape | internal/parser/progress.go:19 | every `[YYYY-MM-DD HH:MM] title` line, with a title that does not start with whitespace, gives time stamp `YYYY-MM-DD HH:MM` and that exact title |
| Progress.DetailMatch | internal/parser/progress.go:21 | a detail's text is a non-empty proper tail of the line |
| Progress.DetailMatchShape | internal/parser/progress.go:21 | every indented `- text` line, with a text that does not start with whitespace, gives that exact text |
| Progress.ParseProgress | internal/parser/progress.go:25-80 | a missing file is an error; otherwise the scanner loop yields Entries of the lines |
| Progress.HeaderLine | internal/parser/progress.go:49-60 | a header flushes the open entry and opens one with its timestamp and title and no details |
| Progress.BlankLine | internal/parser/progress.go:40-46 | a blank line closes and emits the open entry, and is a no-op when none is open |
| Progress.DetailLine | internal/parser/progress.go:63-67 | a detail line appends its text to the open entry's details |
| Progress.IgnoredLines | internal/parser/progress.go:62-67 | a detail with no open entry, or any other line, changes nothing |
| Progress.ScanHeads | internal/parser/progress.go:32-73 | the entries flushed at the end carry the header lines' timestamps and titles, in file order |
| Progress.EntriesMatchHeaders | internal/parser/progress.go:32-73 | one entry per header line, in file order, so every opened entry is emitted exactly once |
| Viewer.UpsertReplaces | internal/model/model.go:242-247 | an existing id replaces its first trace in place; length and all other traces unchanged |
| Viewer.UpsertAppends | internal/model/model.go:249-254 | a new id goes at the end, after the newest old traces; the length grows by one, capped at 50 |
| Viewer.UpsertBounded | internal/model/model.go:249-254 | at most 50 traces stay at most 50 |
| Viewer.UpsertFindable | internal/model/model.go:240-255 | after the upsert the first trace with that id is the new trace |
| Viewer.Model.UpdateSubagent | internal/model/model.go:240-255 | the in-place upsert yields Upserted of the old list and leaves the other fields alone |
| Viewer.Model.CalculateSidebarWidth | internal/model/model.go:732-740 | 0 iff width < 80, 25 iff width >= 120, otherwise 20, and never more than a quarter of the width |
| Viewer.SidebarMonotone | internal/model/model.go:732-740 | a wider terminal never gets a narrower sidebar |
| Viewer.Model.GetCurrentTask | internal/model/model.go:742-749 | the first incomplete task, and nil iff all are complete |
| Viewer.Model.AllTasksComplete | internal/model/model.go:751-758 | holds iff no task is incomplete, so also on an empty list, and iff the completed count equals the task count |
| Viewer.WrapText | internal/model/model.go:773-778 | identity when short enough; otherwise the first width-3 bytes plus `...`, exactly width long |
| Viewer.DigitsNoLeadingZero | internal/model/model.go:780-790 | a positive number's digits have no leading zero |
| Viewer.DigitsValue | internal/model/model.go:780-790 | the digits read back as the number |
| Viewer.DecimalRoundTrip | internal/model/model.go:780-790 | the text of n reads back as n, and starts with 0 only when it is `"0"` |
| Viewer.Itoa | internal/model/model.go:780-790 | the division loop yields Decimal: `"0"` for 0, the digits for positive n, `""` for negative n |

## Left out

- Process spawning and stream plumbing: `exec.Cmd`, the pipes, the two reader goroutines and their `WaitGroup`, `cmd.Wait`, `Process.Kill` and `time.Sleep(RestartDelay)`. A round gives whether the child started and what it wrote to stdout.
- stderr is read but never scanned for tokens (internal/orchestrator/orchestrator.go:394-402), and it counts for nothing, so it is not an input to the model.
- `file_path` is returned untruncated (internal/orchestrator/orchestrator.go:477-479); the model does the same.
- The 1 MB scanner buffer and a scanner error part-way through a file are left out. `ParsePRD` and `ParseProgress` report an error only for a missing file.
- Library layers:
  - JSON decoding and encoding are left out; decoded JSON is a datatype.
  - Go's Unicode `TrimSpace` is approximated by ASCII whitespace (space, \t, \n, \v, \f, \r).
  - Regular expressions are written as hand predicates with RE2's ASCII `\s`.
- File effects, other than their outcome:
  - The session save is a `saveOk` input and the lock write a `lockWriteOk` input. The lock file is an `Option<LockContent>` field.
  - HANDOFF.md is a sequence of appended entries.
  - `MkdirAll` and the per-iteration log file are reduced to a `LogRef(dir, iteration)`.
- Clock and ids: `time.Now` and the UUID are inputs. A trace's end time is the timestamp of its tool_end event. `IterationResult.Duration` is not modelled.
- `Session.SubagentTraces` is never written by the code, so it stays `[]`. `GetSession`, `buildPrompt`, `saveSession`'s JSON and `mustGetwd` are not part of this model.
- `tea.Program.Send` notifications, the status messages and the UI code (rendering, keys, viewport) are left out. So are `internal/theme`, `internal/watcher`, `internal/runner`, `internal/model/commands.go`, `messages.go` and `cmd/rwatch/main.go`.
- The `Task` struct of internal/orchestrator/types.go is not modelled: nothing in the orchestrator uses it. The parser's `Prd.Task` is modelled.
- Concurrency is reduced to one point per pass where a `Stop` may land (`Loop.StopPoint`): before the stop poll or after it. `Stop` landing between individual field writes is not modelled.
- Loop.Run: the rounds are supplied up front, at least as many as the iterations left.
- Tracer.Truncate, Viewer.WrapText: require `maxLen >= 3` (or a short input). Go panics on a shorter limit with a longer string, and only calls `truncate` with 100 and 200.
- Orchestrator.Orchestrator.Stop: requires that running and stopped are not both set. Stop's double `close` of the channel, which would panic, is therefore not modelled.
- Orchestrator.Orchestrator.WriteHandoff: a failure to open HANDOFF.md is not modelled; the block is always recorded.
- Workspace.RecentProgress: `ContextLines` is a `nat`; a negative value, which would panic on the slice, is not modelled.
- Orchestrator.Orchestrator.InitSession: removing a stale lock is assumed to succeed (the error of `os.Remove` at internal/orchestrator/orchestrator.go:196 is discarded). If that removal failed and the new lock also could not be written, Go would leave the stale record in place, while the model leaves no lock.
- Orchestrator.Orchestrator.Start: restarting after a `Stop` is not modelled beyond what `running` says. `running` stays set after the loop ends, as in the code.

## Findings

| source | as written | input that shows it | evidently intended | confidence | as-written member | corrected member |
|---|---|---|---|---|---|---|
| internal/orchestrator/orchestrator.go:186-194 | liveness is probed with `process.Signal(os.Signal(nil))`; a nil signal is not a `syscall.Signal`, so the call fails for every PID and the lock is always judged stale | a lock file naming PID 4242 of a supervisor that is still running: the second instance removes the lock and starts anyway | a live PID (signal 0 succeeds) refuses the start with "another instance is running" | high, not executed | Orchestrator.AsWrittenReclaimsLiveLock | Orchestrator.CheckLock |
