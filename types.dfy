/** The supervisor's records (internal/orchestrator/types.go). Times are integer clock readings. */
module Types {
  import opened Wrappers
  import CliEvents

  datatype SubagentStatus = Pending | Running | Complete | Error {
    function Text(): string {
      match this
      case Pending => "pending"
      case Running => "running"
      case Complete => "complete"
      case Error => "error"
    }
  }

  /** One traced tool invocation of the current iteration. */
  datatype SubagentTrace = SubagentTrace(
    id: string,
    kind: string,
    input: string,
    status: SubagentStatus,
    output: string,
    startedAt: int,
    endedAt: Option<int>,
    duration: int)

  datatype SessionStatus = Running | Completed | Interrupted | Failed | Recovered {
    function Text(): string {
      match this
      case Running => "running"
      case Completed => "completed"
      case Interrupted => "interrupted"
      case Failed => "failed"
      case Recovered => "recovered"
    }
  }

  /** The session record persisted after every change. */
  datatype Session = Session(
    id: string,
    startedAt: int,
    updatedAt: int,
    status: SessionStatus,
    iteration: int,
    tasksCompleted: int,
    currentTask: string,
    workingDir: string,
    pid: int,
    subagentTraces: seq<SubagentTrace>)

  datatype IterationStatus = Complete | Blocked | Failed | Timeout {
    function Text(): string {
      match this
      case Complete => "complete"
      case Blocked => "blocked"
      case Failed => "failed"
      case Timeout => "timeout"
    }
  }

  /** The per-iteration log file `<dir>/iteration-<n>.log`, kept as its two parts. */
  datatype LogRef = LogRef(dir: string, iteration: int)

  datatype IterationResult = IterationResult(
    iteration: int,
    status: IterationStatus,
    task: string,
    subagents: seq<SubagentTrace>,
    logFile: LogRef)

  const CompletionTokenComplete: string := "<promise>COMPLETE</promise>"
  const CompletionTokenBlocked: string := "<promise>BLOCKED</promise>"

  /** The orchestrator's token constants are the ones the CLI layer scans for. */
  lemma TokensAgree()
    ensures CompletionTokenComplete == CliEvents.CompletionToken
    ensures CompletionTokenBlocked == CliEvents.BlockedToken
  {
  }

  /** The status names are pairwise distinct, so they survive the JSON round trip. */
  lemma StatusNamesDistinct(a: SessionStatus, b: SessionStatus, c: SubagentStatus, d: SubagentStatus,
                            e: IterationStatus, f: IterationStatus)
    ensures a != b ==> a.Text() != b.Text()
    ensures c != d ==> c.Text() != d.Text()
    ensures e != f ==> e.Text() != f.Text()
  {
  }
}
