/** Backend selection and dispatch over the two adapters (internal/cli/interface.go). */
module Cli {
  import opened Wrappers
  import opened CliEvents
  import Config
  import ClaudeCli
  import CodexCli

  /** A CLIRunner: which adapter, and the configuration it was built from. */
  datatype Runner = ClaudeRunner(config: Config.CLIConfig) | CodexRunner(config: Config.CLIConfig)

  /**
   * One line of the child's standard output, together with what the JSON
   * decoder makes of it under each backend's event shape.
   */
  datatype RawLine = RawLine(
    text: string,
    asClaude: Decoded<ClaudeCli.ClaudeEvent>,
    asCodex: Decoded<CodexCli.CodexEvent>,
    at: int)

  /** Codex only for the exact backend "codex"; anything else, valid or not, gets Claude. */
  function NewCLIRunner(cfg: Config.CLIConfig): (r: Runner)
    ensures r.config == cfg
    ensures r.CodexRunner? <==> cfg.backend == Config.Codex
  {
    if cfg.backend == Config.Codex then CodexRunner(cfg) else ClaudeRunner(cfg)
  }

  function Name(runner: Runner): string {
    match runner
    case ClaudeRunner(_) => ClaudeCli.Name()
    case CodexRunner(_) => CodexCli.Name()
  }

  predicate SupportsStreamJSON(runner: Runner) {
    match runner
    case ClaudeRunner(_) => ClaudeCli.SupportsStreamJSON()
    case CodexRunner(_) => CodexCli.SupportsStreamJSON()
  }

  function BuildCommand(runner: Runner, prompt: string, workDir: string): Command {
    match runner
    case ClaudeRunner(config) => ClaudeCli.BuildCommand(config, prompt, workDir)
    case CodexRunner(config) => CodexCli.BuildCommand(config, prompt, workDir)
  }

  function ParseEvent(runner: Runner, line: RawLine): (r: Option<NormalizedEvent>)
    ensures r.None? <==> (if runner.ClaudeRunner? then line.asClaude.Malformed? else line.asCodex.Malformed?)
    ensures r.Some? ==> r.value.timestamp == line.at
  {
    match runner
    case ClaudeRunner(_) => ClaudeCli.ParseEvent(line.asClaude, line.at)
    case CodexRunner(_) => CodexCli.ParseEvent(line.asCodex, line.at)
  }

  /**
   * The runner's display name is the configured backend when that is valid,
   * and "claude" for any unrecognised backend; both backends stream JSON.
   */
  lemma RunnerMatchesBackend(cfg: Config.CLIConfig)
    ensures Config.IsValid(cfg.backend) ==> Name(NewCLIRunner(cfg)) == cfg.backend
    ensures !Config.IsValid(cfg.backend) ==> Name(NewCLIRunner(cfg)) == "claude"
    ensures SupportsStreamJSON(NewCLIRunner(cfg))
  {
  }

  /** The program launched is the configured command, else the backend's default binary. */
  lemma ProgramIsCommandOrDefault(cfg: Config.CLIConfig, prompt: string, workDir: string)
    ensures BuildCommand(NewCLIRunner(cfg), prompt, workDir).program ==
      if cfg.command != "" then cfg.command else Name(NewCLIRunner(cfg))
  {
  }
}
