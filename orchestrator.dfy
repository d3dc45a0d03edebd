/**
 * The supervisor object (internal/orchestrator/orchestrator.go): its
 * configuration, the start-up lock decision, and the methods that update
 * its fields. Process liveness, the clock, the UUID, the working
 * directory and the outcome of writing the session file are inputs.
 */
module Orchestrator {
  import opened Wrappers
  import opened Types
  import opened CliEvents
  import CfgCli = Config
  import Cli
  import Tracer
  import Workspace
  import Iteration
  import Loop

  datatype Config = Config(
    maxIterations: int,
    restartDelay: int,
    contextLines: nat,
    logDir: string,
    sessionFile: string,
    lockFile: string,
    cliConfig: CfgCli.CLIConfig)

  /** 100 iterations, 3 s between them, 20 lines of progress, the dot-file names, Claude. */
  function DefaultConfig(): (c: Config)
    ensures c.maxIterations == 100 && c.restartDelay == 3 && c.contextLines == 20
    ensures c.logDir == ".ralph-logs" && c.sessionFile == ".ralph-session.json" && c.lockFile == ".ralph.lock"
    ensures c.cliConfig == CfgCli.DefaultCLIConfig() && c.cliConfig.backend == CfgCli.Claude
  {
    Config(100, 3, 20, ".ralph-logs", ".ralph-session.json", ".ralph.lock", CfgCli.DefaultCLIConfig())
  }

  /** The lock file's contents: a record, or bytes that do not decode into one. */
  datatype LockContent = LockRecord(pid: int, sessionId: string, timestamp: int) | Unparsable

  /** The PID read from the lock; an unreadable or malformed lock reads as 0. */
  function LockPid(content: LockContent): int {
    if content.LockRecord? then content.pid else 0
  }

  datatype LockDecision = NoLock | Stale | HeldBy(pid: int)

  /**
   * The lock check of `initSession`: a lock is held exactly when its PID is
   * positive and that process is alive; any other lock is stale.
   */
  function CheckLock(lock: Option<LockContent>, alive: int -> bool): (d: LockDecision)
    ensures d.NoLock? <==> lock.None?
    ensures d.HeldBy? <==> lock.Some? && LockPid(lock.value) > 0 && alive(LockPid(lock.value))
    ensures d.HeldBy? ==> d.pid == LockPid(lock.value) && d.pid > 0
  {
    match lock
    case None => NoLock
    case Some(content) =>
      var pid := LockPid(content);
      if pid > 0 && alive(pid) then HeldBy(pid) else Stale
  }

  /**
   * The liveness probe as written: `process.Signal(os.Signal(nil))`. A nil
   * signal is not a `syscall.Signal`, so the call reports an error for every
   * process, alive or not.
   */
  function SignalNilProbe(pid: int): bool {
    false
  }

  /** As written, no lock is ever found held, so a running instance's lock is taken over. */
  lemma AsWrittenLockNeverHeld(lock: Option<LockContent>)
    ensures !CheckLock(lock, SignalNilProbe).HeldBy?
    ensures lock.Some? ==> CheckLock(lock, SignalNilProbe) == Stale
  {
  }

  /** A lock of a live process 4242: the intended check refuses to start; as written it reclaims. */
  lemma AsWrittenReclaimsLiveLock()
    ensures CheckLock(Some(LockRecord(4242, "s", 0)), (p: int) => p == 4242) == HeldBy(4242)
    ensures CheckLock(Some(LockRecord(4242, "s", 0)), SignalNilProbe) == Stale
  {
  }

  /** A malformed lock is stale whatever is alive. */
  lemma MalformedLockIsStale(alive: int -> bool)
    ensures CheckLock(Some(Unparsable), alive) == Stale
    ensures CheckLock(Some(LockRecord(0, "", 0)), alive) == Stale
  {
  }

  datatype StartError = AlreadyRunning | LockHeld(pid: int) | SaveFailed

  /** A new session: running, iteration 0, nothing completed, stamped with the start time. */
  function NewSession(id: string, now: int, workingDir: string, pid: int): (s: Session)
    ensures s.status == SessionStatus.Running && s.iteration == 0 && s.tasksCompleted == 0
    ensures s.id == id && s.pid == pid && s.workingDir == workingDir && s.currentTask == ""
    ensures s.startedAt == now && s.updatedAt == now && s.subagentTraces == []
  {
    Session(id, now, now, SessionStatus.Running, 0, 0, "", workingDir, pid, [])
  }

  class Orchestrator {
    const config: Config
    const cliRunner: Cli.Runner
    var session: Option<Session>
    var running: bool
    /** Whether the stop channel has been closed; it is never reopened. */
    var stopped: bool
    var currentSubagents: seq<SubagentTrace>
    /** The lock file on disk, if any. */
    var lockFile: Option<LockContent>
    /** The blocks appended to HANDOFF.md. */
    var handoff: seq<Loop.HandoffEntry>

    /** `New`: the runner is chosen from the CLI configuration; `lock` is whatever lock file is on disk. */
    constructor (config: Config, lock: Option<LockContent>)
      ensures this.config == config && cliRunner == Cli.NewCLIRunner(config.cliConfig)
      ensures session.None? && !running && !stopped && currentSubagents == [] && handoff == []
      ensures lockFile == lock
    {
      this.config := config;
      cliRunner := Cli.NewCLIRunner(config.cliConfig);
      session := None;
      running := false;
      stopped := false;
      currentSubagents := [];
      lockFile := lock;
      handoff := [];
    }

    /**
     * `initSession`: refuse when the lock is held; otherwise replace any
     * lock by one for this process and start a fresh session. The errors of
     * writing the lock are discarded: when the write fails (`lockWriteOk`
     * false) no lock is left behind. Only the session save is reported.
     */
    method InitSession(alive: int -> bool, ownPid: int, newId: string, now: int, workingDir: string,
                       lockWriteOk: bool, saveOk: bool)
      returns (err: Option<StartError>)
      modifies this`session, this`lockFile
      ensures CheckLock(old(lockFile), alive).HeldBy? ==>
        err == Some(LockHeld(CheckLock(old(lockFile), alive).pid)) &&
        session == old(session) && lockFile == old(lockFile)
      ensures !CheckLock(old(lockFile), alive).HeldBy? ==>
        session == Some(NewSession(newId, now, workingDir, ownPid)) &&
        lockFile == (if lockWriteOk then Some(LockRecord(ownPid, newId, now)) else None) &&
        err == (if saveOk then None else Some(SaveFailed))
    {
      var decision := CheckLock(lockFile, alive);
      if decision.HeldBy? {
        return Some(LockHeld(decision.pid));
      }
      if decision.Stale? {
        lockFile := None;
      }
      session := Some(NewSession(newId, now, workingDir, ownPid));
      if lockWriteOk {
        lockFile := Some(LockRecord(ownPid, newId, now));
      }
      if !saveOk {
        return Some(SaveFailed);
      }
      return None;
    }

    /**
     * `Start`: an error when already running; otherwise the running flag is
     * set BEFORE the session is initialised and stays set when that fails.
     */
    method Start(alive: int -> bool, ownPid: int, newId: string, now: int, workingDir: string,
                 lockWriteOk: bool, saveOk: bool)
      returns (err: Option<StartError>)
      modifies this`running, this`session, this`lockFile
      ensures running
      ensures old(running) ==> err == Some(AlreadyRunning) && session == old(session) && lockFile == old(lockFile)
      ensures !old(running) && CheckLock(old(lockFile), alive).HeldBy? ==>
        err == Some(LockHeld(CheckLock(old(lockFile), alive).pid)) && session == old(session) &&
        lockFile == old(lockFile)
      ensures !old(running) && !CheckLock(old(lockFile), alive).HeldBy? ==>
        session == Some(NewSession(newId, now, workingDir, ownPid)) &&
        lockFile == (if lockWriteOk then Some(LockRecord(ownPid, newId, now)) else None) &&
        err == (if saveOk then None else Some(SaveFailed))
    {
      if running {
        return Some(AlreadyRunning);
      }
      running := true;
      err := InitSession(alive, ownPid, newId, now, workingDir, lockWriteOk, saveOk);
    }

    /**
     * `Stop`: a no-op unless running; otherwise the stop channel is closed,
     * the flag cleared and the session, if any, marked interrupted. Go
     * panics when the channel is closed twice, which only a restart after a
     * stop could cause; the precondition excludes that state.
     */
    method Stop()
      requires !(running && stopped)
      modifies this`running, this`stopped, this`session
      ensures !old(running) ==> running == old(running) && stopped == old(stopped) && session == old(session)
      ensures old(running) ==> !running && stopped
      ensures old(running) ==>
        session == (if old(session).Some? then Some(old(session).value.(status := Interrupted)) else None)
    {
      if !running {
        return;
      }
      stopped := true;
      running := false;
      if session.Some? {
        session := Some(session.value.(status := Interrupted));
      }
    }

    /** `completeSubagent`: finish the first trace with this ID, if there is one. */
    method CompleteSubagent(toolId: string, output: string, isError: bool, now: int)
      modifies this`currentSubagents
      ensures currentSubagents == Tracer.CompleteFirst(old(currentSubagents), toolId, now, output, isError)
    {
      var i := 0;
      while i < |currentSubagents|
        invariant 0 <= i <= |currentSubagents|
        invariant currentSubagents == old(currentSubagents)
        invariant forall j :: 0 <= j < i ==> currentSubagents[j].id != toolId
      {
        if currentSubagents[i].id == toolId {
          assert Tracer.FirstWithId(currentSubagents, toolId) == Some(i);
          currentSubagents := currentSubagents[i := Tracer.Finished(currentSubagents[i], now, output, isError)];
          return;
        }
        i := i + 1;
      }
    }

    /** `processNormalizedEvent` on the trace list (the UI notifications are not modelled). */
    method ProcessNormalizedEvent(event: NormalizedEvent)
      modifies this`currentSubagents
      ensures currentSubagents == Tracer.ApplyEvent(old(currentSubagents), event)
    {
      match event.kind {
        case ToolStart =>
          currentSubagents := currentSubagents + [Tracer.StartTrace(event)];
        case ToolEnd =>
          CompleteSubagent(event.toolId, event.content, event.isError, event.timestamp);
        case _ =>
      }
    }

    /**
     * One stdout line of `runIteration`: a line the backend parses goes to
     * the tracer and, when it is a message, its content is checked for the
     * tokens; a line it cannot parse is checked as raw text.
     */
    method ScanLine(line: Cli.RawLine, completion: bool, blocked: bool) returns (completionAfter: bool, blockedAfter: bool)
      modifies this`currentSubagents
      ensures completionAfter <==> completion || Iteration.SignalsCompletion(Iteration.Item(cliRunner, line))
      ensures blockedAfter <==> blocked || Iteration.SignalsBlocked(Iteration.Item(cliRunner, line))
      ensures var item := Iteration.Item(cliRunner, line);
        currentSubagents == if item.Decoded? then Tracer.ApplyEvent(old(currentSubagents), item.event) else old(currentSubagents)
    {
      completionAfter, blockedAfter := completion, blocked;
      var parsed := Cli.ParseEvent(cliRunner, line);
      if parsed.Some? {
        var event := parsed.value;
        ProcessNormalizedEvent(event);
        if event.kind == Message {
          if ContainsCompletionToken(event.content) {
            completionAfter := true;
          }
          if ContainsBlockedToken(event.content) {
            blockedAfter := true;
          }
        }
      } else {
        if ContainsCompletionToken(line.text) {
          completionAfter := true;
        }
        if ContainsBlockedToken(line.text) {
          blockedAfter := true;
        }
      }
    }

    /** The body of the `runIteration` scan loop: line `i` extends the scanned prefix by one item. */
    method ScanItem(ghost items: seq<Iteration.StdoutItem>, stdout: seq<Cli.RawLine>, i: nat, completion: bool, blocked: bool)
      returns (completionAfter: bool, blockedAfter: bool)
      requires i < |stdout| && items == Iteration.Items(cliRunner, stdout)
      requires completion == Iteration.SeenCompletion(items[..i]) && blocked == Iteration.SeenBlocked(items[..i])
      requires currentSubagents == Tracer.Traced(Iteration.Events(items[..i]))
      modifies this`currentSubagents
      ensures completionAfter == Iteration.SeenCompletion(items[..i + 1])
      ensures blockedAfter == Iteration.SeenBlocked(items[..i + 1])
      ensures currentSubagents == Tracer.Traced(Iteration.Events(items[..i + 1]))
    {
      Iteration.ScanStep(items, i);
      ghost var before := Iteration.Events(items[..i]);
      assert items[i] == Iteration.Item(cliRunner, stdout[i]);
      completionAfter, blockedAfter := ScanLine(stdout[i], completion, blocked);
      if items[i].Decoded? {
        Iteration.TracedStep(before, items[i].event);
        assert Iteration.Events(items[..i + 1]) == before + [items[i].event];
      } else {
        assert Iteration.Events(items[..i + 1]) == before;
      }
    }

    /**
     * `runIteration` for the session's current iteration: reset the traces,
     * then, if the log file and the child could be started, feed every
     * stdout line through the backend parser, the tracer and the token
     * checks, and classify.
     */
    method RunIteration(launched: bool, stdout: seq<Cli.RawLine>) returns (result: IterationResult)
      requires session.Some?
      modifies this`currentSubagents
      ensures result == Iteration.Outcome(session.value, launched, Iteration.Items(cliRunner, stdout), config.logDir)
      ensures currentSubagents == result.subagents
    {
      var logFile := LogRef(config.logDir, session.value.iteration);
      currentSubagents := [];
      if !launched {
        return IterationResult(session.value.iteration, IterationStatus.Failed, session.value.currentTask, [], logFile);
      }
      ghost var items := Iteration.Items(cliRunner, stdout);
      var completionDetected := false;
      var blockedDetected := false;
      var i := 0;
      while i < |stdout|
        invariant 0 <= i <= |stdout|
        invariant completionDetected == Iteration.SeenCompletion(items[..i])
        invariant blockedDetected == Iteration.SeenBlocked(items[..i])
        invariant currentSubagents == Tracer.Traced(Iteration.Events(items[..i]))
      {
        completionDetected, blockedDetected := ScanItem(items, stdout, i, completionDetected, blockedDetected);
        i := i + 1;
      }
      assert items[..|stdout|] == items;
      var status := if completionDetected then IterationStatus.Complete
        else if blockedDetected then IterationStatus.Blocked
        else IterationStatus.Failed;
      result := IterationResult(session.value.iteration, status, session.value.currentTask, currentSubagents, logFile);
    }

    /** `writeHandoff`: one more block for the blocked task and its log. */
    method WriteHandoff(task: string, logFile: LogRef)
      modifies this`handoff
      ensures handoff == old(handoff) + [Loop.HandoffEntry(task, logFile)]
    {
      handoff := handoff + [Loop.HandoffEntry(task, logFile)];
    }

    /** The loop state the fields and the loop's locals make up. */
    ghost function Snapshot(failures: nat, history: seq<IterationResult>): Loop.LoopState
      reads this
      requires session.Some?
    {
      Loop.LoopState(session.value, running, stopped, failures, currentSubagents, handoff, history)
    }

    /**
     * The `switch` on the iteration's status in `runLoop`: count a
     * completion, write a handoff for a blocked task, extend the failure
     * streak and give up at three.
     */
    method RecordResult(result: IterationResult, task: string, failures: nat, ghost history: seq<IterationResult>)
      returns (failuresAfter: nat, exit: Loop.Exit)
      requires session.Some? && currentSubagents == result.subagents
      modifies this`session, this`handoff
      ensures session.Some?
      ensures Loop.Record(old(Snapshot(failures, history)), result, task) == (Snapshot(failuresAfter, history + [result]), exit)
    {
      failuresAfter, exit := failures, Loop.NotYet;
      match result.status {
        case Complete =>
          session := Some(session.value.(tasksCompleted := session.value.tasksCompleted + 1));
          failuresAfter := 0;
        case Blocked =>
          WriteHandoff(task, result.logFile);
          failuresAfter := 0;
        case Failed =>
          failuresAfter := failures + 1;
          if failuresAfter >= Loop.MaxConsecutiveFailures {
            session := Some(session.value.(status := SessionStatus.Failed));
            exit := Loop.TooManyFailures;
          }
        case Timeout =>
      }
    }

    /**
     * One pass of the `runLoop` body: the stop-channel poll, the counter,
     * the task check, the iteration and the bookkeeping. A Stop landing
     * during the pass is played as a call of `Stop` at its place.
     */
    method PassOnce(round: Loop.Round, failures: nat, ghost history: seq<IterationResult>)
      returns (failuresAfter: nat, ghost historyAfter: seq<IterationResult>, exit: Loop.Exit)
      requires session.Some? && !(running && stopped)
      modifies this`session, this`running, this`stopped, this`currentSubagents, this`handoff
      ensures session.Some? && !(running && stopped)
      ensures Loop.Pass(old(Snapshot(failures, history)), round, cliRunner, config.logDir)
           == (Snapshot(failuresAfter, historyAfter), exit)
    {
      ghost var st := Snapshot(failures, history);
      if round.stop == Loop.AtSelect {
        Stop();
      }
      assert Snapshot(failures, history) == if round.stop == Loop.AtSelect then Loop.StopEffect(st) else st;
      if stopped {
        return failures, history, Loop.StopSeen;
      }
      ghost var s0 := Snapshot(failures, history);
      if round.stop == Loop.MidPass {
        Stop();
      }
      assert Snapshot(failures, history) == if round.stop == Loop.MidPass then Loop.StopEffect(s0) else s0;
      failuresAfter, historyAfter, exit := WorkOnce(round, failures, history);
    }

    /** The pass after the poll found the channel open: Loop.Work on the fields. */
    method WorkOnce(round: Loop.Round, failures: nat, ghost history: seq<IterationResult>)
      returns (failuresAfter: nat, ghost historyAfter: seq<IterationResult>, exit: Loop.Exit)
      requires session.Some?
      modifies this`session, this`currentSubagents, this`handoff
      ensures session.Some?
      ensures Loop.Work(old(Snapshot(failures, history)), round, cliRunner, config.logDir)
           == (Snapshot(failuresAfter, historyAfter), exit)
    {
      ghost var s1 := Snapshot(failures, history);
      ghost var check := Workspace.TaskCheck(round.prd);
      session := Some(session.value.(iteration := session.value.iteration + 1));
      ghost var counted := Snapshot(failures, history);
      assert counted == s1.(session := s1.session.(iteration := s1.session.iteration + 1));
      var shouldContinue, currentTask, remaining := Workspace.CheckTasks(round.prd);
      if !shouldContinue {
        session := Some(session.value.(status := Completed));
        assert Loop.Work(s1, round, cliRunner, config.logDir) == (counted.(session := counted.session.(status := Completed)), Loop.NoTasks);
        return failures, history, Loop.NoTasks;
      }
      session := Some(session.value.(currentTask := currentTask));
      ghost var current := Snapshot(failures, history);
      assert Loop.Work(s1, round, cliRunner, config.logDir)
          == Loop.Record(current, Iteration.Outcome(current.session, round.launched, Iteration.Items(cliRunner, round.stdout), config.logDir), currentTask);
      failuresAfter, historyAfter, exit := IterateOnce(round, currentTask, failures, history);
    }

    /** The iteration for the task just chosen, and its bookkeeping. */
    method IterateOnce(round: Loop.Round, task: string, failures: nat, ghost history: seq<IterationResult>)
      returns (failuresAfter: nat, ghost historyAfter: seq<IterationResult>, exit: Loop.Exit)
      requires session.Some?
      modifies this`session, this`currentSubagents, this`handoff
      ensures session.Some?
      ensures Loop.Record(old(Snapshot(failures, history)),
                          Iteration.Outcome(old(session.value), round.launched, Iteration.Items(cliRunner, round.stdout), config.logDir),
                          task)
           == (Snapshot(failuresAfter, historyAfter), exit)
    {
      ghost var st := Snapshot(failures, history);
      var result := RunIteration(round.launched, round.stdout);
      assert Snapshot(failures, history) == st.(traces := result.subagents);
      Loop.RecordIgnoresTraces(st, result.subagents, result, task);
      failuresAfter, exit := RecordResult(result, task, failures, history);
      historyAfter := history + [result];
    }

    /**
     * `runLoop`, driven by one Round per pass: its fields end as the loop
     * specification's final state, and the lock file is removed on every exit.
     */
    method RunLoop(rounds: seq<Loop.Round>) returns (exit: Loop.Exit)
      requires session.Some? && !(running && stopped)
      requires |rounds| >= config.maxIterations - session.value.iteration
      modifies this
      ensures var (f, e) := Loop.Run(old(Snapshot(0, [])), rounds, cliRunner, config.maxIterations, config.logDir);
        exit == e && session == Some(f.session) && running == f.running && stopped == f.stopped &&
        currentSubagents == f.traces && handoff == f.handoff
      ensures lockFile.None?
    {
      ghost var init := Snapshot(0, []);
      ghost var history: seq<IterationResult> := [];
      var failures: nat := 0;
      var k := 0;
      while session.value.iteration < config.maxIterations
        invariant session.Some? && !(running && stopped)
        invariant 0 <= k <= |rounds| && |rounds| - k >= config.maxIterations - session.value.iteration
        invariant Loop.Run(Snapshot(failures, history), rounds[k..], cliRunner, config.maxIterations, config.logDir)
               == Loop.Run(init, rounds, cliRunner, config.maxIterations, config.logDir)
        decreases config.maxIterations - session.value.iteration
      {
        ghost var st := Snapshot(failures, history);
        ghost var next := Loop.Pass(st, rounds[k], cliRunner, config.logDir);
        Loop.PassAdvances(st, rounds[k], cliRunner, config.logDir);
        assert Loop.Run(st, rounds[k..], cliRunner, config.maxIterations, config.logDir)
            == if next.1 != Loop.NotYet then next
               else Loop.Run(next.0, rounds[k..][1..], cliRunner, config.maxIterations, config.logDir);
        assert rounds[k..][1..] == rounds[k + 1..];
        failures, history, exit := PassOnce(rounds[k], failures, history);
        if exit != Loop.NotYet {
          lockFile := None;
          return;
        }
        k := k + 1;
      }
      session := Some(session.value.(status := Completed));
      lockFile := None;
      return Loop.IterationLimit;
    }
  }
}
