/**
 * One iteration as seen from the child's standard output: which lines
 * carry the completion signals, and how the iteration is classified
 * (runIteration in internal/orchestrator/orchestrator.go). Standard error
 * is logged but never inspected, so it is not an input here.
 */
module Iteration {
  import opened Wrappers
  import opened CliEvents
  import opened Types
  import Cli
  import Tracer

  /** What the reader does with one line: a decoded event, or raw text. */
  datatype StdoutItem = Decoded(event: NormalizedEvent) | Undecodable(line: string)

  function Item(runner: Cli.Runner, raw: Cli.RawLine): (r: StdoutItem)
    ensures r.Undecodable? ==> r.line == raw.text
  {
    match Cli.ParseEvent(runner, raw)
    case Some(event) => Decoded(event)
    case None => Undecodable(raw.text)
  }

  function Items(runner: Cli.Runner, lines: seq<Cli.RawLine>): (r: seq<StdoutItem>)
    ensures |r| == |lines|
    ensures forall i :: 0 <= i < |lines| ==> r[i] == Item(runner, lines[i])
  {
    seq(|lines|, i requires 0 <= i < |lines| => Item(runner, lines[i]))
  }

  /** Tokens count only in a message event's content or in an undecodable line. */
  function SignalText(item: StdoutItem): Option<string> {
    match item
    case Decoded(event) => if event.kind == Message then Some(event.content) else None
    case Undecodable(line) => Some(line)
  }

  predicate SignalsCompletion(item: StdoutItem) {
    SignalText(item).Some? && ContainsCompletionToken(SignalText(item).value)
  }

  predicate SignalsBlocked(item: StdoutItem) {
    SignalText(item).Some? && ContainsBlockedToken(SignalText(item).value)
  }

  predicate SeenCompletion(items: seq<StdoutItem>) {
    exists i :: 0 <= i < |items| && SignalsCompletion(items[i])
  }

  predicate SeenBlocked(items: seq<StdoutItem>) {
    exists i :: 0 <= i < |items| && SignalsBlocked(items[i])
  }

  /**
   * The classification: an iteration whose log file or process could not
   * be started fails; otherwise COMPLETE anywhere wins, then BLOCKED, then
   * failure.
   */
  function Classify(launched: bool, items: seq<StdoutItem>): (s: IterationStatus)
    ensures s != IterationStatus.Timeout
  {
    if !launched then IterationStatus.Failed
    else if SeenCompletion(items) then IterationStatus.Complete
    else if SeenBlocked(items) then IterationStatus.Blocked
    else IterationStatus.Failed
  }

  /** The events the tracer sees, in order. */
  function Events(items: seq<StdoutItem>): (r: seq<NormalizedEvent>)
    ensures |r| <= |items|
    decreases |items|
  {
    if |items| == 0 then []
    else
      var last := items[|items| - 1];
      Events(items[..|items| - 1]) + (if last.Decoded? then [last.event] else [])
  }

  /** The traces the iteration leaves: none unless the process ran. */
  function IterationTraces(launched: bool, items: seq<StdoutItem>): seq<SubagentTrace> {
    if launched then Tracer.Traced(Events(items)) else []
  }

  /** The result `runIteration` returns for the session's current iteration and task. */
  function Outcome(session: Session, launched: bool, items: seq<StdoutItem>, logDir: string): (r: IterationResult)
    ensures r.iteration == session.iteration && r.task == session.currentTask
    ensures r.logFile == LogRef(logDir, session.iteration)
    ensures r.status == Classify(launched, items)
  {
    IterationResult(session.iteration, Classify(launched, items), session.currentTask,
                    IterationTraces(launched, items), LogRef(logDir, session.iteration))
  }

  /** Reading one more line: the signals seen and the events grow by that line's contribution. */
  lemma ScanStep(items: seq<StdoutItem>, i: nat)
    requires i < |items|
    ensures SeenCompletion(items[..i + 1]) <==> SeenCompletion(items[..i]) || SignalsCompletion(items[i])
    ensures SeenBlocked(items[..i + 1]) <==> SeenBlocked(items[..i]) || SignalsBlocked(items[i])
    ensures Events(items[..i + 1]) == Events(items[..i]) + (if items[i].Decoded? then [items[i].event] else [])
  {
    var p := items[..i + 1];
    assert p[..i] == items[..i];
    assert p == items[..i] + [items[i]];
    SeenCompletionSnoc(items[..i], items[i]);
    SeenBlockedSnoc(items[..i], items[i]);
  }

  lemma SeenCompletionSnoc(items: seq<StdoutItem>, item: StdoutItem)
    ensures SeenCompletion(items + [item]) <==> SeenCompletion(items) || SignalsCompletion(item)
  {
    var p := items + [item];
    if SeenCompletion(items) {
      var j :| 0 <= j < |items| && SignalsCompletion(items[j]);
      assert p[j] == items[j];
    }
    if SignalsCompletion(item) {
      assert p[|items|] == item;
    }
    if SeenCompletion(p) {
      var j :| 0 <= j < |p| && SignalsCompletion(p[j]);
      if j < |items| { assert p[j] == items[j]; }
    }
  }

  lemma SeenBlockedSnoc(items: seq<StdoutItem>, item: StdoutItem)
    ensures SeenBlocked(items + [item]) <==> SeenBlocked(items) || SignalsBlocked(item)
  {
    var p := items + [item];
    if SeenBlocked(items) {
      var j :| 0 <= j < |items| && SignalsBlocked(items[j]);
      assert p[j] == items[j];
    }
    if SignalsBlocked(item) {
      assert p[|items|] == item;
    }
    if SeenBlocked(p) {
      var j :| 0 <= j < |p| && SignalsBlocked(p[j]);
      if j < |items| { assert p[j] == items[j]; }
    }
  }

  /** One more event applied to the tracer. */
  lemma TracedStep(events: seq<NormalizedEvent>, event: NormalizedEvent)
    ensures Tracer.Traced(events + [event]) == Tracer.ApplyEvent(Tracer.Traced(events), event)
  {
    assert (events + [event])[..|events|] == events;
  }

  /** The three outcomes in terms of the signals seen; `timeout` never arises. */
  lemma ClassifyMeaning(launched: bool, items: seq<StdoutItem>)
    ensures Classify(launched, items) == IterationStatus.Complete <==> launched && SeenCompletion(items)
    ensures Classify(launched, items) == IterationStatus.Blocked <==> launched && !SeenCompletion(items) && SeenBlocked(items)
    ensures Classify(launched, items) == IterationStatus.Failed <==> !launched || (!SeenCompletion(items) && !SeenBlocked(items))
  {
  }

  /** A message carrying both tokens completes the iteration, whatever else was seen. */
  lemma CompletionBeatsBlocked(items: seq<StdoutItem>, i: nat)
    requires i < |items| && SignalsCompletion(items[i]) && SignalsBlocked(items[i])
    ensures Classify(true, items) == IterationStatus.Complete
  {
  }

  /** Decoded events other than messages never signal, whatever their content says. */
  lemma OnlyMessagesSignal(event: NormalizedEvent)
    requires event.kind != Message
    ensures !SignalsCompletion(Decoded(event)) && !SignalsBlocked(Decoded(event))
  {
  }

  /** The rank of an outcome on the way failed < blocked < complete. */
  function Rank(s: IterationStatus): nat {
    match s
    case Failed => 0
    case Timeout => 0
    case Blocked => 1
    case Complete => 2
  }

  /** More output can only improve the classification: signals are never taken back. */
  lemma ClassifyMonotone(launched: bool, items: seq<StdoutItem>, more: seq<StdoutItem>)
    ensures Rank(Classify(launched, items)) <= Rank(Classify(launched, items + more))
  {
    if SeenCompletion(items) {
      var i :| 0 <= i < |items| && SignalsCompletion(items[i]);
      assert (items + more)[i] == items[i];
    }
    if SeenBlocked(items) {
      var i :| 0 <= i < |items| && SignalsBlocked(items[i]);
      assert (items + more)[i] == items[i];
    }
  }

  /** Every trace the iteration reports is well formed: running, or finished with an end time. */
  lemma OutcomeTracesWellFormed(session: Session, launched: bool, items: seq<StdoutItem>, logDir: string)
    ensures Tracer.AllWellFormed(Outcome(session, launched, items, logDir).subagents)
    ensures !launched ==> Outcome(session, launched, items, logDir).subagents == []
  {
  }
}
