/** The Claude Code backend adapter: launch arguments and event mapping (internal/cli/claude.go). */
module ClaudeCli {
  import opened Wrappers
  import opened CliEvents
  import Config

  datatype ClaudeMsg = ClaudeMsg(role: string, content: string)
  datatype ClaudeTool = ClaudeTool(id: string, name: string, input: ToolInput)
  datatype ClaudeResult = ClaudeResult(toolUseId: string, content: string, isError: bool)

  /** One decoded line of `--output-format stream-json`; absent objects are None. */
  datatype ClaudeEvent = ClaudeEvent(
    kind: string,
    subtype: string,
    message: Option<ClaudeMsg>,
    toolUse: Option<ClaudeTool>,
    toolResult: Option<ClaudeResult>,
    content: string,
    error: string)

  const BaseArgs: seq<string> := ["--dangerously-skip-permissions", "--output-format", "stream-json", "--verbose"]

  function Name(): string { "claude" }

  predicate SupportsStreamJSON() { true }

  /**
   * The launch description. The prompt is not an argument: it is written to
   * the child's standard input.
   */
  function BuildCommand(config: Config.CLIConfig, prompt: string, workDir: string): (cmd: Command)
    ensures cmd.program == if config.command == "" then "claude" else config.command
    ensures |cmd.args| == |BaseArgs| + (if config.model == "" then 0 else 2) + |config.extraArgs|
    ensures cmd.args[..|BaseArgs|] == BaseArgs
    ensures config.model != "" ==> cmd.args[|BaseArgs|..|BaseArgs| + 2] == ["--model", config.model]
    ensures cmd.args[|cmd.args| - |config.extraArgs|..] == config.extraArgs
    ensures cmd.dir == if workDir == "" then None else Some(workDir)
  {
    var program := if config.command == "" then "claude" else config.command;
    var modelArgs := if config.model != "" then ["--model", config.model] else [];
    Command(program, BaseArgs + modelArgs + config.extraArgs, if workDir != "" then Some(workDir) else None)
  }

  /** The prompt never influences the command line. */
  lemma PromptNotInCommand(config: Config.CLIConfig, p1: string, p2: string, workDir: string)
    ensures BuildCommand(config, p1, workDir) == BuildCommand(config, p2, workDir)
  {
  }

  /**
   * Maps one line to a normalized event; a line that does not decode yields
   * no event (Go's `(nil, err)`), never a partial one.
   */
  function ParseEvent(line: Decoded<ClaudeEvent>, now: int): (r: Option<NormalizedEvent>)
    ensures r.None? <==> line.Malformed?
    ensures r.Some? ==> r.value.timestamp == now && r.value.kind != TurnComplete
    ensures r.Some? ==> (r.value.kind == Message <==> line.value.kind == "assistant")
    ensures r.Some? ==> (r.value.kind == ToolStart <==> line.value.kind == "tool_use")
    ensures r.Some? ==> (r.value.kind == ToolEnd <==> line.value.kind == "tool_result")
    ensures r.Some? ==> (r.value.kind == Error <==> line.value.kind == "error")
    ensures r.Some? ==> (r.value.isError <==>
      line.value.kind == "error" ||
      (line.value.kind == "tool_result" && line.value.toolResult.Some? && line.value.toolResult.value.isError))
  {
    match line
    case Malformed => None
    case Json(event) =>
      var blank := BlankEvent(Unknown, now);
      Some(
        if event.kind == "assistant" then
          blank.(kind := Message,
                 content := if event.message.Some? then event.message.value.content else "")
        else if event.kind == "tool_use" then
          if event.toolUse.Some? then
            blank.(kind := ToolStart, toolId := event.toolUse.value.id,
                   toolName := event.toolUse.value.name, toolInput := event.toolUse.value.input)
          else blank.(kind := ToolStart)
        else if event.kind == "tool_result" then
          if event.toolResult.Some? then
            blank.(kind := ToolEnd, toolId := event.toolResult.value.toolUseId,
                   content := event.toolResult.value.content, isError := event.toolResult.value.isError)
          else blank.(kind := ToolEnd)
        else if event.kind == "error" then
          blank.(kind := Error, content := event.error, isError := true)
        else
          blank.(content := event.content))
  }

  /** `assistant`: the message text, or "" without a message object. */
  lemma AssistantIsMessage(event: ClaudeEvent, now: int)
    requires event.kind == "assistant"
    ensures ParseEvent(Json(event), now).value.content ==
      if event.message.Some? then event.message.value.content else ""
  {
  }

  /** `tool_use`: ID, name and input copied from the tool object, empty without one. */
  lemma ToolUseIsToolStart(event: ClaudeEvent, now: int)
    requires event.kind == "tool_use"
    ensures var e := ParseEvent(Json(event), now).value;
      if event.toolUse.Some? then
        e.toolId == event.toolUse.value.id && e.toolName == event.toolUse.value.name &&
        e.toolInput == event.toolUse.value.input
      else e.toolId == "" && e.toolName == "" && e.toolInput == None
  {
  }

  /** `tool_result`: the tool ID is the result's tool_use_id; content and error flag are copied. */
  lemma ToolResultIsToolEnd(event: ClaudeEvent, now: int)
    requires event.kind == "tool_result" && event.toolResult.Some?
    ensures var e := ParseEvent(Json(event), now).value;
      e.toolId == event.toolResult.value.toolUseId &&
      e.content == event.toolResult.value.content &&
      e.isError == event.toolResult.value.isError
  {
  }

  /** `error`: the top-level error string; any other type: the top-level content. */
  lemma ErrorAndOtherContent(event: ClaudeEvent, now: int)
    requires event.kind !in {"assistant", "tool_use", "tool_result"}
    ensures var e := ParseEvent(Json(event), now).value;
      e.content == if event.kind == "error" then event.error else event.content
  {
  }
}
