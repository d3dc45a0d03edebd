/** The Codex backend adapter: launch arguments and two-phase item mapping (internal/cli/codex.go). */
module CodexCli {
  import opened Wrappers
  import opened CliEvents
  import Config

  datatype CodexContent = CodexContent(text: string)
  datatype CodexCommand = CodexCommand(name: string, input: ToolInput)
  datatype CodexItem = CodexItem(
    kind: string,
    id: string,
    status: string,
    content: Option<CodexContent>,
    command: Option<CodexCommand>,
    output: string)
  datatype CodexTurn = CodexTurn(status: string)
  datatype CodexError = CodexError(message: string, code: string)

  /** One decoded line of `codex exec --json`; absent objects are None. */
  datatype CodexEvent = CodexEvent(
    kind: string,
    sessionId: string,
    item: Option<CodexItem>,
    turn: Option<CodexTurn>,
    error: Option<CodexError>)

  const BaseArgs: seq<string> := ["exec", "--json", "--dangerously-bypass-approvals-and-sandbox"]

  function Name(): string { "codex" }

  predicate SupportsStreamJSON() { true }

  predicate IsToolItem(kind: string) {
    kind == "command_execution" || kind == "tool_call"
  }

  function BuildCommand(config: Config.CLIConfig, prompt: string, workDir: string): (cmd: Command)
    ensures cmd.program == if config.command == "" then "codex" else config.command
    ensures |cmd.args| == |BaseArgs| + (if config.model == "" then 0 else 2) + |config.extraArgs|
    ensures cmd.args[..|BaseArgs|] == BaseArgs
    ensures config.model != "" ==> cmd.args[|BaseArgs|..|BaseArgs| + 2] == ["--model", config.model]
    ensures cmd.args[|cmd.args| - |config.extraArgs|..] == config.extraArgs
    ensures cmd.dir == if workDir == "" then None else Some(workDir)
  {
    var program := if config.command == "" then "codex" else config.command;
    var modelArgs := if config.model != "" then ["--model", config.model] else [];
    Command(program, BaseArgs + modelArgs + config.extraArgs, if workDir != "" then Some(workDir) else None)
  }

  /**
   * `item.started`: a tool item becomes tool_start with the item's ID, plus
   * name and input when it carries a command; anything else leaves the
   * event as it was. The Go code fills in the caller's event in place;
   * here the updated event is returned.
   */
  function ParseItemStarted(item: Option<CodexItem>, normalized: NormalizedEvent): (r: NormalizedEvent)
    ensures item.None? || !IsToolItem(item.value.kind) ==> r == normalized
    ensures item.Some? && IsToolItem(item.value.kind) ==>
      r.kind == ToolStart && r.toolId == item.value.id &&
      r.toolName == (if item.value.command.Some? then item.value.command.value.name else normalized.toolName) &&
      r.toolInput == (if item.value.command.Some? then item.value.command.value.input else normalized.toolInput) &&
      r.content == normalized.content && r.isError == normalized.isError && r.timestamp == normalized.timestamp
  {
    if item.None? then normalized
    else if IsToolItem(item.value.kind) then
      var started := normalized.(kind := ToolStart, toolId := item.value.id);
      if item.value.command.Some? then
        started.(toolName := item.value.command.value.name, toolInput := item.value.command.value.input)
      else started
    else normalized
  }

  /**
   * `item.completed`: an agent message becomes message with its text; a tool
   * item becomes tool_end with its output, erroneous iff its status is
   * "error"; anything else leaves the event as it was.
   */
  function ParseItemCompleted(item: Option<CodexItem>, normalized: NormalizedEvent): (r: NormalizedEvent)
    ensures item.None? ==> r == normalized
    ensures item.Some? && item.value.kind == "agent_message" ==>
      r == normalized.(kind := Message,
                       content := if item.value.content.Some? then item.value.content.value.text else normalized.content)
    ensures item.Some? && IsToolItem(item.value.kind) ==>
      r == normalized.(kind := ToolEnd, toolId := item.value.id, content := item.value.output,
                       isError := item.value.status == "error")
    ensures item.Some? && item.value.kind != "agent_message" && !IsToolItem(item.value.kind) ==> r == normalized
  {
    if item.None? then normalized
    else if item.value.kind == "agent_message" then
      var msg := normalized.(kind := Message);
      if item.value.content.Some? then msg.(content := item.value.content.value.text) else msg
    else if IsToolItem(item.value.kind) then
      normalized.(kind := ToolEnd, toolId := item.value.id, content := item.value.output,
                  isError := item.value.status == "error")
    else normalized
  }

  /**
   * Maps one line to a normalized event, starting from `unknown`; a line that
   * does not decode yields no event.
   */
  function ParseEvent(line: Decoded<CodexEvent>, now: int): (r: Option<NormalizedEvent>)
    ensures r.None? <==> line.Malformed?
    ensures r.Some? ==> r.value.timestamp == now
    ensures r.Some? ==> (r.value.kind == TurnComplete <==> line.value.kind == "turn.completed")
    ensures r.Some? ==> (r.value.kind == Error <==> line.value.kind == "error")
    ensures r.Some? && r.value.kind == ToolStart ==> line.value.kind == "item.started"
    ensures r.Some? && (r.value.kind == Message || r.value.kind == ToolEnd) ==> line.value.kind == "item.completed"
    ensures r.Some? && line.value.kind !in {"item.started", "item.completed", "turn.completed", "error"} ==>
      r.value == BlankEvent(Unknown, now)
  {
    match line
    case Malformed => None
    case Json(event) =>
      var blank := BlankEvent(Unknown, now);
      Some(
        if event.kind == "item.started" then ParseItemStarted(event.item, blank)
        else if event.kind == "item.completed" then ParseItemCompleted(event.item, blank)
        else if event.kind == "turn.completed" then blank.(kind := TurnComplete)
        else if event.kind == "error" then
          blank.(kind := Error, isError := true,
                 content := if event.error.Some? then event.error.value.message else "")
        else blank)
  }

  /** `item.started` yields tool_start exactly for a tool item; otherwise the event stays unknown. */
  lemma ItemStartedMapping(event: CodexEvent, now: int)
    requires event.kind == "item.started"
    ensures var e := ParseEvent(Json(event), now).value;
      (e.kind == ToolStart <==> event.item.Some? && IsToolItem(event.item.value.kind)) &&
      (e.kind != ToolStart ==> e == BlankEvent(Unknown, now))
  {
  }

  /** `item.completed` of a tool item is erroneous exactly when the item's status is "error". */
  lemma ItemCompletedError(event: CodexEvent, now: int)
    requires event.kind == "item.completed" && event.item.Some? && IsToolItem(event.item.value.kind)
    ensures var e := ParseEvent(Json(event), now).value;
      e.kind == ToolEnd && e.content == event.item.value.output &&
      (e.isError <==> event.item.value.status == "error")
  {
  }
}
