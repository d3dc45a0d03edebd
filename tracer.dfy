/**
 * Subagent tracing: how tool_start and tool_end events turn into the
 * iteration's list of traces (processNormalizedEvent, completeSubagent,
 * extractToolInputSummary and truncate in internal/orchestrator/orchestrator.go).
 */
module Tracer {
  import opened Wrappers
  import opened Types
  import opened CliEvents

  /**
   * `truncate`: short strings unchanged, long ones cut to exactly `maxLen`
   * bytes ending in "...". The Go slice `s[:maxLen-3]` panics for a long
   * string and `maxLen < 3`, hence the precondition.
   */
  function Truncate(s: string, maxLen: nat): (r: string)
    requires maxLen >= 3 || |s| <= maxLen
    ensures |s| <= maxLen ==> r == s
    ensures |s| > maxLen ==> |r| == maxLen && r[..maxLen - 3] == s[..maxLen - 3] && r[maxLen - 3..] == "..."
    ensures |r| <= maxLen
  {
    if |s| <= maxLen then s else s[..maxLen - 3] + "..."
  }

  /** Truncating twice to the same bound is truncating once. */
  lemma TruncateIdempotent(s: string, maxLen: nat)
    requires maxLen >= 3
    ensures Truncate(Truncate(s, maxLen), maxLen) == Truncate(s, maxLen)
  {
  }

  /** The string value stored under `key`, if there is one. */
  function StringField(input: map<string, JsonValue>, key: string): Option<string> {
    if key in input && input[key].JString? then Some(input[key].s) else None
  }

  /**
   * A one-line summary of a tool's input: the `command` string (at most 100
   * bytes), else the `file_path` string in full, else the `prompt` string
   * (at most 100 bytes), else "".
   */
  function ExtractToolInputSummary(input: ToolInput): (r: string)
    ensures input.None? ==> r == ""
    ensures |r| <= 100 || (input.Some? && StringField(input.value, "file_path") == Some(r))
  {
    match input
    case None => ""
    case Some(fields) =>
      match StringField(fields, "command")
      case Some(cmd) => Truncate(cmd, 100)
      case None =>
        match StringField(fields, "file_path")
        case Some(path) => path
        case None =>
          match StringField(fields, "prompt")
          case Some(prompt) => Truncate(prompt, 100)
          case None => ""
  }

  /** The priority order of the three fields, and what each contributes. */
  lemma SummaryPriority(fields: map<string, JsonValue>)
    ensures var r := ExtractToolInputSummary(Some(fields));
      && (StringField(fields, "command").Some? ==> r == Truncate(StringField(fields, "command").value, 100))
      && (StringField(fields, "command").None? && StringField(fields, "file_path").Some? ==>
            r == StringField(fields, "file_path").value)
      && (StringField(fields, "command").None? && StringField(fields, "file_path").None? ==>
            r == if StringField(fields, "prompt").Some? then Truncate(StringField(fields, "prompt").value, 100) else "")
  {
  }

  /** The trace a tool_start event opens. */
  function StartTrace(event: NormalizedEvent): (t: SubagentTrace)
    ensures t.id == event.toolId && t.kind == event.toolName && t.status == SubagentStatus.Running
    ensures t.startedAt == event.timestamp && t.endedAt.None? && t.input == ExtractToolInputSummary(event.toolInput)
  {
    SubagentTrace(event.toolId, event.toolName, ExtractToolInputSummary(event.toolInput),
                  SubagentStatus.Running, "", event.timestamp, None, 0)
  }

  /** The index of the first trace with this ID, if any. */
  function FirstWithId(traces: seq<SubagentTrace>, id: string): (r: Option<nat>)
    ensures r.Some? ==> r.value < |traces| && traces[r.value].id == id
    ensures r.Some? ==> forall j :: 0 <= j < r.value ==> traces[j].id != id
    ensures r.None? ==> forall j :: 0 <= j < |traces| ==> traces[j].id != id
    decreases |traces|
  {
    if |traces| == 0 then None
    else if traces[0].id == id then Some(0)
    else match FirstWithId(traces[1..], id)
      case None => None
      case Some(i) => Some(i + 1)
  }

  /** A trace finished at `now` with the given output and outcome. */
  function Finished(t: SubagentTrace, now: int, output: string, isError: bool): (f: SubagentTrace)
    ensures f.id == t.id && f.kind == t.kind && f.input == t.input && f.startedAt == t.startedAt
    ensures f.endedAt == Some(now) && f.duration == now - t.startedAt
    ensures f.output == Truncate(output, 200) && |f.output| <= 200
    ensures f.status == if isError then SubagentStatus.Error else SubagentStatus.Complete
  {
    t.(endedAt := Some(now), duration := now - t.startedAt, output := Truncate(output, 200),
       status := if isError then SubagentStatus.Error else SubagentStatus.Complete)
  }

  /**
   * `completeSubagent`: the first trace with the tool's ID is finished; an
   * unknown ID changes nothing.
   */
  function CompleteFirst(traces: seq<SubagentTrace>, id: string, now: int, output: string, isError: bool): (r: seq<SubagentTrace>)
    ensures |r| == |traces|
    ensures FirstWithId(traces, id).None? ==> r == traces
    ensures FirstWithId(traces, id).Some? ==>
      var i := FirstWithId(traces, id).value;
      r[i] == Finished(traces[i], now, output, isError) &&
      forall j :: 0 <= j < |traces| && j != i ==> r[j] == traces[j]
  {
    match FirstWithId(traces, id)
    case None => traces
    case Some(i) => traces[i := Finished(traces[i], now, output, isError)]
  }

  /**
   * `processNormalizedEvent` on the trace list: tool_start appends, tool_end
   * finishes, every other type leaves the list alone. The clock reading of
   * the completion is the event's own timestamp.
   */
  function ApplyEvent(traces: seq<SubagentTrace>, event: NormalizedEvent): seq<SubagentTrace> {
    match event.kind
    case ToolStart => traces + [StartTrace(event)]
    case ToolEnd => CompleteFirst(traces, event.toolId, event.timestamp, event.content, event.isError)
    case _ => traces
  }

  /** Only the two tool event types touch the traces; the list never shrinks. */
  lemma ApplyEventFrame(traces: seq<SubagentTrace>, event: NormalizedEvent)
    ensures event.kind != ToolStart && event.kind != ToolEnd ==> ApplyEvent(traces, event) == traces
    ensures event.kind == ToolStart ==> ApplyEvent(traces, event) == traces + [StartTrace(event)]
    ensures |ApplyEvent(traces, event)| == |traces| + (if event.kind == ToolStart then 1 else 0)
    ensures forall j :: 0 <= j < |traces| ==> ApplyEvent(traces, event)[j].id == traces[j].id
  {
  }

  /**
   * A trace is either still running (no end, no duration) or finished with
   * an end time, a duration measured from its start and at most 200 bytes
   * of output; `pending` is never used.
   */
  predicate WellFormed(t: SubagentTrace) {
    match t.status
    case Pending => false
    case Running => t.endedAt.None? && t.duration == 0 && t.output == ""
    case _ => t.endedAt.Some? && t.duration == t.endedAt.value - t.startedAt && |t.output| <= 200
  }

  predicate AllWellFormed(traces: seq<SubagentTrace>) {
    forall j :: 0 <= j < |traces| ==> WellFormed(traces[j])
  }

  /** Every event keeps the whole trace list well formed. */
  lemma ApplyEventKeepsWellFormed(traces: seq<SubagentTrace>, event: NormalizedEvent)
    requires AllWellFormed(traces)
    ensures AllWellFormed(ApplyEvent(traces, event))
  {
  }

  /** The traces a sequence of events leaves behind, starting from none. */
  function Traced(events: seq<NormalizedEvent>): (r: seq<SubagentTrace>)
    ensures AllWellFormed(r)
    decreases |events|
  {
    if |events| == 0 then []
    else
      var before := Traced(events[..|events| - 1]);
      ApplyEventKeepsWellFormed(before, events[|events| - 1]);
      ApplyEvent(before, events[|events| - 1])
  }

  /** One trace per tool_start event, in order of the events. */
  function CountStarts(events: seq<NormalizedEvent>): nat
    decreases |events|
  {
    if |events| == 0 then 0
    else CountStarts(events[..|events| - 1]) + (if events[|events| - 1].kind == ToolStart then 1 else 0)
  }

  lemma {:induction false} TracedLength(events: seq<NormalizedEvent>)
    ensures |Traced(events)| == CountStarts(events)
    decreases |events|
  {
    if |events| > 0 {
      TracedLength(events[..|events| - 1]);
      ApplyEventFrame(Traced(events[..|events| - 1]), events[|events| - 1]);
    }
  }
}
