/**
 * The supervisor loop as a state machine (runLoop in
 * internal/orchestrator/orchestrator.go). Each pass is driven by one
 * Round: whether and where a concurrent Stop lands, what PRD.md holds,
 * whether the child could be started, and what it printed.
 */
module Loop {
  import opened Wrappers
  import opened Types
  import Cli
  import Workspace
  import Iteration

  /**
   * Where a concurrent `Stop` takes effect during a pass: not at all, just
   * before the stop-channel poll, or after the poll while the pass runs on.
   * `runLoop` does not take the mutex, so Stop can land anywhere.
   */
  datatype StopPoint = NoStop | AtSelect | MidPass

  datatype Round = Round(stop: StopPoint, prd: Option<string>, launched: bool, stdout: seq<Cli.RawLine>)

  /** Why the loop ended; NotYet while it goes on. */
  datatype Exit = NotYet | StopSeen | NoTasks | TooManyFailures | IterationLimit

  /** One block appended to HANDOFF.md for a blocked task. */
  datatype HandoffEntry = HandoffEntry(task: string, logFile: LogRef)

  /**
   * The state the loop works on: the session, the running flag, whether the
   * stop channel is closed, the failure streak, the current iteration's
   * traces, the handoff entries written, and (for the proofs) the results
   * of the iterations run so far.
   */
  datatype LoopState = LoopState(
    session: Session,
    running: bool,
    stopped: bool,
    failures: nat,
    traces: seq<SubagentTrace>,
    handoff: seq<HandoffEntry>,
    history: seq<IterationResult>)

  const MaxConsecutiveFailures: nat := 3

  /** `Stop`: a no-op unless running; then the channel is closed and the session interrupted. */
  function StopEffect(st: LoopState): (r: LoopState)
    ensures !st.running ==> r == st
    ensures st.running ==> !r.running && r.stopped && r.session == st.session.(status := Interrupted)
    ensures r.history == st.history && r.failures == st.failures && r.handoff == st.handoff && r.traces == st.traces
  {
    if st.running then st.(running := false, stopped := true, session := st.session.(status := Interrupted)) else st
  }

  /** The iteration's result folded into the state: counters, handoff and streak. */
  function Record(st: LoopState, result: IterationResult, task: string): (LoopState, Exit) {
    var s := st.(traces := result.subagents, history := st.history + [result]);
    match result.status
    case Complete =>
      (s.(session := s.session.(tasksCompleted := s.session.tasksCompleted + 1), failures := 0), NotYet)
    case Blocked =>
      (s.(handoff := s.handoff + [HandoffEntry(task, result.logFile)], failures := 0), NotYet)
    case Failed =>
      if st.failures + 1 >= MaxConsecutiveFailures then
        (s.(failures := st.failures + 1, session := s.session.(status := SessionStatus.Failed)), TooManyFailures)
      else (s.(failures := st.failures + 1), NotYet)
    case Timeout => (s, NotYet)
  }

  /**
   * The rest of a pass once the stop channel was found open: bump the
   * counter, check the tasks, run the iteration and record its result.
   */
  function Work(s1: LoopState, round: Round, runner: Cli.Runner, logDir: string): (LoopState, Exit) {
    var counted := s1.(session := s1.session.(iteration := s1.session.iteration + 1));
    var check := Workspace.TaskCheck(round.prd);
    if !check.0 then (counted.(session := counted.session.(status := Completed)), NoTasks)
    else
      var current := counted.(session := counted.session.(currentTask := check.1));
      var result := Iteration.Outcome(current.session, round.launched, Iteration.Items(runner, round.stdout), logDir);
      Record(current, result, check.1)
  }

  /** One pass of the loop body, entered with the iteration below the limit. */
  function Pass(st: LoopState, round: Round, runner: Cli.Runner, logDir: string): (LoopState, Exit) {
    var s0 := if round.stop == AtSelect then StopEffect(st) else st;
    if s0.stopped then (s0, StopSeen)
    else Work(if round.stop == MidPass then StopEffect(s0) else s0, round, runner, logDir)
  }

  /** The whole loop: passes until an exit, then `completed` when the limit is reached. */
  function Run(st: LoopState, rounds: seq<Round>, runner: Cli.Runner, maxIterations: int, logDir: string): (r: (LoopState, Exit))
    requires |rounds| >= maxIterations - st.session.iteration
    ensures r.1 != NotYet
    decreases |rounds|
  {
    if st.session.iteration >= maxIterations then
      (st.(session := st.session.(status := Completed)), IterationLimit)
    else
      var next := Pass(st, rounds[0], runner, logDir);
      if next.1 != NotYet then next
      else
        PassAdvances(st, rounds[0], runner, logDir);
        Run(next.0, rounds[1..], runner, maxIterations, logDir)
  }

  /** Recording a result leaves the counter alone. */
  lemma RecordKeepsIteration(st: LoopState, result: IterationResult, task: string)
    ensures Record(st, result, task).0.session.iteration == st.session.iteration
    ensures Record(st, result, task).1 != StopSeen
  {
  }

  /** The work of a pass bumps the counter once. */
  lemma WorkAdvances(s1: LoopState, round: Round, runner: Cli.Runner, logDir: string)
    ensures Work(s1, round, runner, logDir).0.session.iteration == s1.session.iteration + 1
    ensures Work(s1, round, runner, logDir).1 != StopSeen
  {
    var counted := s1.(session := s1.session.(iteration := s1.session.iteration + 1));
    var check := Workspace.TaskCheck(round.prd);
    if check.0 {
      var current := counted.(session := counted.session.(currentTask := check.1));
      var result := Iteration.Outcome(current.session, round.launched, Iteration.Items(runner, round.stdout), logDir);
      RecordKeepsIteration(current, result, check.1);
    }
  }

  /** A pass bumps the counter once, unless it saw a stop at the poll. */
  lemma PassAdvances(st: LoopState, round: Round, runner: Cli.Runner, logDir: string)
    ensures var (s, e) := Pass(st, round, runner, logDir);
      s.session.iteration == st.session.iteration + (if e == StopSeen then 0 else 1)
  {
    var s0 := if round.stop == AtSelect then StopEffect(st) else st;
    if !s0.stopped {
      WorkAdvances(if round.stop == MidPass then StopEffect(s0) else s0, round, runner, logDir);
    }
  }

  /** Number of trailing failed iterations: the streak the loop counts. */
  function Trailing(history: seq<IterationResult>): nat
    decreases |history|
  {
    if |history| == 0 || history[|history| - 1].status != IterationStatus.Failed then 0
    else Trailing(history[..|history| - 1]) + 1
  }

  function CountStatus(history: seq<IterationResult>, status: IterationStatus): nat
    decreases |history|
  {
    if |history| == 0 then 0
    else CountStatus(history[..|history| - 1], status) + (if history[|history| - 1].status == status then 1 else 0)
  }

  /**
   * What the passes so far have accumulated, relative to the state the loop
   * started from: completions counted, one handoff per blocked iteration,
   * iterations numbered consecutively, and no streak of three before the end.
   */
  predicate Counts(init: LoopState, st: LoopState) {
    && st.session.tasksCompleted == init.session.tasksCompleted + CountStatus(st.history, IterationStatus.Complete)
    && |st.handoff| == |init.handoff| + CountStatus(st.history, IterationStatus.Blocked)
    && st.handoff[..|init.handoff|] == init.handoff
    && (forall i :: 0 <= i < |st.history| ==> st.history[i].iteration == init.session.iteration + i + 1)
    && (forall k :: 0 <= k < |st.history| ==> Trailing(st.history[..k]) < MaxConsecutiveFailures)
    && st.session.id == init.session.id && st.session.pid == init.session.pid
    && st.session.workingDir == init.session.workingDir && st.session.startedAt == init.session.startedAt
  }

  /**
   * The state between passes: counts as above, one iteration per result,
   * the streak below three, running exactly while no stop was seen, and the
   * session `running` unless a stop marked it `interrupted`.
   */
  predicate Between(init: LoopState, st: LoopState) {
    && Counts(init, st)
    && st.session.iteration == init.session.iteration + |st.history|
    && st.failures == Trailing(st.history) && st.failures < MaxConsecutiveFailures
    && st.running == !st.stopped
    && st.session.status == (if st.stopped then Interrupted else SessionStatus.Running)
  }

  /** The loop as `Start` launches it: a running session, no streak, no results yet. */
  predicate Fresh(init: LoopState) {
    init.history == [] && init.failures == 0 && init.running == !init.stopped &&
    init.session.status == (if init.stopped then Interrupted else SessionStatus.Running)
  }

  lemma FreshIsBetween(init: LoopState)
    requires Fresh(init)
    ensures Between(init, init)
  {
    assert init.handoff[..|init.handoff|] == init.handoff;
  }

  lemma CountStatusSnoc(h: seq<IterationResult>, r: IterationResult, s: IterationStatus)
    ensures CountStatus(h + [r], s) == CountStatus(h, s) + (if r.status == s then 1 else 0)
  {
    assert (h + [r])[..|h|] == h;
  }

  lemma TrailingSnoc(h: seq<IterationResult>, r: IterationResult)
    ensures Trailing(h + [r]) == if r.status == IterationStatus.Failed then Trailing(h) + 1 else 0
  {
    assert (h + [r])[..|h|] == h;
  }

  /** Recording a result keeps the counts, given the streak so far is below three. */
  lemma RecordCounts(init: LoopState, st: LoopState, result: IterationResult, task: string)
    requires Counts(init, st) && st.failures == Trailing(st.history) && st.failures < MaxConsecutiveFailures
    requires result.iteration == init.session.iteration + |st.history| + 1
    requires result.status != IterationStatus.Timeout
    ensures var (s, e) := Record(st, result, task);
      && Counts(init, s) && s.history == st.history + [result]
      && s.failures == Trailing(s.history)
      && (e == NotYet ==> s.failures < MaxConsecutiveFailures && s.session.status == st.session.status)
      && (e == TooManyFailures <==> Trailing(s.history) == MaxConsecutiveFailures)
      && (e == TooManyFailures ==> s.session.status == SessionStatus.Failed)
      && (e == NotYet || e == TooManyFailures)
      && s.session.iteration == st.session.iteration
      && s.running == st.running && s.stopped == st.stopped
  {
    var h := st.history + [result];
    CountStatusSnoc(st.history, result, IterationStatus.Complete);
    CountStatusSnoc(st.history, result, IterationStatus.Blocked);
    TrailingSnoc(st.history, result);
    var s := Record(st, result, task).0;
    assert s.history == h;
    forall k | 0 <= k < |h| ensures Trailing(h[..k]) < MaxConsecutiveFailures {
      if k < |st.history| {
        assert h[..k] == st.history[..k];
      } else {
        assert h[..k] == st.history;
      }
    }
    forall i | 0 <= i < |h| ensures h[i].iteration == init.session.iteration + i + 1 {
      if i < |st.history| { assert h[i] == st.history[i]; }
    }
    if result.status == IterationStatus.Blocked {
      assert s.handoff == st.handoff + [HandoffEntry(task, result.logFile)];
      assert s.handoff[..|init.handoff|] == st.handoff[..|init.handoff|];
    }
  }

  /** Recording overwrites the traces, so the traces before it do not matter. */
  lemma RecordIgnoresTraces(st: LoopState, traces: seq<SubagentTrace>, result: IterationResult, task: string)
    ensures Record(st.(traces := traces), result, task) == Record(st, result, task)
  {
  }

  /** A stop keeps the state between passes. */
  lemma StopKeeps(init: LoopState, st: LoopState)
    requires Between(init, st)
    ensures Between(init, StopEffect(st))
  {
  }

  /** What one pass's work leaves, when it started from a state between passes. */
  predicate WorkLeaves(init: LoopState, st: LoopState, s: LoopState, e: Exit) {
    && Counts(init, s)
    && (e == NotYet ==> Between(init, s))
    && (e == NoTasks ==> s.history == st.history && s.session.iteration == st.session.iteration + 1 &&
                         s.session.status == Completed)
    && (e == TooManyFailures ==> s.session.iteration == init.session.iteration + |s.history| &&
                                 Trailing(s.history) == MaxConsecutiveFailures &&
                                 s.session.status == SessionStatus.Failed)
    && (e == NotYet || e == NoTasks || e == TooManyFailures)
  }

  /** The pass that finds no task. */
  lemma WorkNoTasks(init: LoopState, st: LoopState, round: Round, runner: Cli.Runner, logDir: string)
    requires Between(init, st) && !Workspace.TaskCheck(round.prd).0
    ensures var (s, e) := Work(st, round, runner, logDir); WorkLeaves(init, st, s, e)
  {
    var counted := st.(session := st.session.(iteration := st.session.iteration + 1));
    var done := counted.(session := counted.session.(status := Completed));
    assert Work(st, round, runner, logDir) == (done, NoTasks);
    assert Counts(init, done);
  }

  /** The pass that runs an iteration and records it. */
  lemma WorkIterates(init: LoopState, st: LoopState, round: Round, runner: Cli.Runner, logDir: string)
    requires Between(init, st) && Workspace.TaskCheck(round.prd).0
    ensures var (s, e) := Work(st, round, runner, logDir); WorkLeaves(init, st, s, e)
  {
    var counted := st.(session := st.session.(iteration := st.session.iteration + 1));
    var check := Workspace.TaskCheck(round.prd);
    var current := counted.(session := counted.session.(currentTask := check.1));
    var result := Iteration.Outcome(current.session, round.launched, Iteration.Items(runner, round.stdout), logDir);
    assert Work(st, round, runner, logDir) == Record(current, result, check.1);
    assert Counts(init, current);
    assert result.iteration == init.session.iteration + |current.history| + 1;
    RecordCounts(init, current, result, check.1);
  }

  /** The work of one pass from a state between passes. */
  lemma WorkStep(init: LoopState, st: LoopState, round: Round, runner: Cli.Runner, logDir: string)
    requires Between(init, st)
    ensures var (s, e) := Work(st, round, runner, logDir); WorkLeaves(init, st, s, e)
  {
    if Workspace.TaskCheck(round.prd).0 {
      WorkIterates(init, st, round, runner, logDir);
    } else {
      WorkNoTasks(init, st, round, runner, logDir);
    }
  }

  /** One pass from a state between passes. */
  lemma PassStep(init: LoopState, st: LoopState, round: Round, runner: Cli.Runner, logDir: string)
    requires Between(init, st)
    ensures var (s, e) := Pass(st, round, runner, logDir);
      && Counts(init, s)
      && (e == NotYet ==> Between(init, s))
      && (e == StopSeen ==> s.history == st.history && s.session.iteration == st.session.iteration &&
                            s.session.status == Interrupted)
      && (e == NoTasks ==> s.history == st.history && s.session.iteration == st.session.iteration + 1 &&
                           s.session.status == Completed)
      && (e == TooManyFailures ==> s.session.iteration == init.session.iteration + |s.history| &&
                                   Trailing(s.history) == MaxConsecutiveFailures &&
                                   s.session.status == SessionStatus.Failed)
      && (e == NotYet || e == StopSeen || e == NoTasks || e == TooManyFailures)
  {
    var s0 := if round.stop == AtSelect then StopEffect(st) else st;
    StopKeeps(init, st);
    if !s0.stopped {
      var s1 := if round.stop == MidPass then StopEffect(s0) else s0;
      StopKeeps(init, s0);
      WorkStep(init, s1, round, runner, logDir);
    }
  }

  /**
   * How a loop that started from `init` ends in `f` with exit `e`: the
   * counts kept; one iteration per result, plus the pass that found no
   * task; `failed` exactly after three failures in a row; `interrupted`
   * exactly when a stop was seen; `completed` exactly otherwise.
   */
  predicate Ends(init: LoopState, f: LoopState, e: Exit) {
    && Counts(init, f)
    && f.session.iteration == init.session.iteration + |f.history| + (if e == NoTasks then 1 else 0)
    && (e == TooManyFailures <==> f.session.status == SessionStatus.Failed)
    && (e == TooManyFailures <==> Trailing(f.history) == MaxConsecutiveFailures)
    && (e == StopSeen <==> f.session.status == Interrupted)
    && (e == NoTasks || e == IterationLimit <==> f.session.status == Completed)
  }

  /** Reaching the iteration limit ends the loop as `completed`. */
  lemma LimitEnds(init: LoopState, st: LoopState)
    requires Between(init, st)
    ensures Ends(init, st.(session := st.session.(status := Completed)), IterationLimit)
  {
    var f := st.(session := st.session.(status := Completed));
    assert Counts(init, f);
  }

  /** A pass that exits ends the loop. */
  lemma PassEnds(init: LoopState, st: LoopState, round: Round, runner: Cli.Runner, logDir: string)
    requires Between(init, st)
    ensures var (s, e) := Pass(st, round, runner, logDir);
      e != NotYet ==> Ends(init, s, e)
    ensures var (s, e) := Pass(st, round, runner, logDir);
      e == NotYet ==> Between(init, s) && s.session.iteration == st.session.iteration + 1
  {
    PassStep(init, st, round, runner, logDir);
    PassAdvances(st, round, runner, logDir);
  }

  /** A pass that did not exit hands over to the rest of the loop. */
  lemma RunContinues(st: LoopState, rounds: seq<Round>, runner: Cli.Runner, maxIterations: int, logDir: string)
    requires |rounds| >= maxIterations - st.session.iteration
    requires st.session.iteration < maxIterations
    requires Pass(st, rounds[0], runner, logDir).1 == NotYet
    ensures var next := Pass(st, rounds[0], runner, logDir).0;
      |rounds[1..]| >= maxIterations - next.session.iteration &&
      Run(st, rounds, runner, maxIterations, logDir) == Run(next, rounds[1..], runner, maxIterations, logDir)
  {
    PassAdvances(st, rounds[0], runner, logDir);
  }

  /** A pass that exits is where the loop ends. */
  lemma RunStops(st: LoopState, rounds: seq<Round>, runner: Cli.Runner, maxIterations: int, logDir: string)
    requires |rounds| >= maxIterations - st.session.iteration
    requires st.session.iteration < maxIterations
    requires Pass(st, rounds[0], runner, logDir).1 != NotYet
    ensures Run(st, rounds, runner, maxIterations, logDir) == Pass(st, rounds[0], runner, logDir)
  {
  }

  /**
   * The loop's end, for a loop started between passes: it always ends, as
   * `Ends` describes.
   */
  lemma {:induction false} RunOutcome(init: LoopState, st: LoopState, rounds: seq<Round>, runner: Cli.Runner,
                                      maxIterations: int, logDir: string)
    requires Between(init, st)
    requires |rounds| >= maxIterations - st.session.iteration
    ensures var (f, e) := Run(st, rounds, runner, maxIterations, logDir); Ends(init, f, e)
    decreases |rounds|
  {
    if st.session.iteration >= maxIterations {
      LimitEnds(init, st);
    } else {
      PassEnds(init, st, rounds[0], runner, logDir);
      if Pass(st, rounds[0], runner, logDir).1 == NotYet {
        RunContinues(st, rounds, runner, maxIterations, logDir);
        RunOutcome(init, Pass(st, rounds[0], runner, logDir).0, rounds[1..], runner, maxIterations, logDir);
      } else {
        RunStops(st, rounds, runner, maxIterations, logDir);
      }
    }
  }

  /** A counter within the limit stays within it. */
  lemma {:induction false} RunWithinLimit(st: LoopState, rounds: seq<Round>, runner: Cli.Runner,
                                          maxIterations: int, logDir: string)
    requires |rounds| >= maxIterations - st.session.iteration
    requires st.session.iteration <= maxIterations
    ensures Run(st, rounds, runner, maxIterations, logDir).0.session.iteration <= maxIterations
    decreases |rounds|
  {
    if st.session.iteration < maxIterations {
      PassAdvances(st, rounds[0], runner, logDir);
      if Pass(st, rounds[0], runner, logDir).1 == NotYet {
        RunContinues(st, rounds, runner, maxIterations, logDir);
        RunWithinLimit(Pass(st, rounds[0], runner, logDir).0, rounds[1..], runner, maxIterations, logDir);
      } else {
        RunStops(st, rounds, runner, maxIterations, logDir);
      }
    }
  }

  /** A fresh loop ends in `completed`, `failed` or `interrupted`; never `running` or `recovered`. */
  lemma FinalStatus(init: LoopState, rounds: seq<Round>, runner: Cli.Runner, maxIterations: int, logDir: string)
    requires Fresh(init)
    requires |rounds| >= maxIterations - init.session.iteration
    ensures var f := Run(init, rounds, runner, maxIterations, logDir).0;
      f.session.status in {Completed, SessionStatus.Failed, Interrupted}
  {
    FreshIsBetween(init);
    RunOutcome(init, init, rounds, runner, maxIterations, logDir);
  }
}
