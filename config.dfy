/** CLI backend configuration and its layered loading (internal/config/cli.go). */
module Config {
  import opened Wrappers

  /** A backend identifier; any string can be configured, only two are valid. */
  type CLIBackend = string

  const Claude: CLIBackend := "claude"
  const Codex: CLIBackend := "codex"

  datatype CLIConfig = CLIConfig(
    backend: CLIBackend,
    command: string,          // override of the executable; "" means the backend's default
    model: string,            // "" means the backend's default model
    extraArgs: seq<string>)

  /** The contents of `.ralph-config.json`, once decoded. */
  datatype ProjectConfig = ProjectConfig(cli: CLIBackend, model: string)

  /** Claude with its own executable and model, and no extra arguments. */
  function DefaultCLIConfig(): (c: CLIConfig)
    ensures c.backend == Claude && IsValid(c.backend)
    ensures c.command == "" && c.model == "" && c.extraArgs == []
  {
    CLIConfig(Claude, "", "", [])
  }

  /** The first non-empty candidate, or `default` when all are empty. */
  function FirstNonEmpty(candidates: seq<string>, default: string): (r: string)
    ensures (forall i :: 0 <= i < |candidates| ==> candidates[i] == "") ==> r == default
    ensures forall i :: (0 <= i < |candidates| && candidates[i] != "" &&
      (forall j :: 0 <= j < i ==> candidates[j] == "")) ==> r == candidates[i]
    decreases |candidates|
  {
    if |candidates| == 0 then default
    else if candidates[0] != "" then candidates[0]
    else
      assert forall i :: 1 <= i < |candidates| ==> candidates[i] == candidates[1..][i - 1];
      FirstNonEmpty(candidates[1..], default)
  }

  /** With three layers: the first that is set wins. */
  lemma FirstOfThree(a: string, b: string, c: string, default: string)
    ensures FirstNonEmpty([a, b, c], default)
         == if a != "" then a else if b != "" then b else if c != "" then c else default
  {
    var cs := [a, b, c];
    assert cs[0] == a && cs[1] == b && cs[2] == c;
  }

  function ProjectCli(project: Option<ProjectConfig>): string {
    if project.Some? then project.value.cli else ""
  }

  function ProjectModel(project: Option<ProjectConfig>): string {
    if project.Some? then project.value.model else ""
  }

  /**
   * Layers the configuration: flag over environment over project file over
   * default. `envCli`/`envModel` are the values of RALPH_CLI/RALPH_MODEL
   * ("" when unset); `project` is None when the file is missing or malformed.
   */
  method LoadCLIConfig(flagCli: string, flagModel: string, envCli: string, envModel: string,
                       project: Option<ProjectConfig>) returns (config: CLIConfig)
    ensures config.backend == FirstNonEmpty([flagCli, envCli, ProjectCli(project)], Claude)
    ensures config.model == FirstNonEmpty([flagModel, envModel, ProjectModel(project)], "")
    ensures config.command == "" && config.extraArgs == []
  {
    config := DefaultCLIConfig();

    if project.Some? {
      if project.value.cli != "" {
        config := config.(backend := project.value.cli);
      }
      if project.value.model != "" {
        config := config.(model := project.value.model);
      }
    }

    if envCli != "" {
      config := config.(backend := envCli);
    }
    if envModel != "" {
      config := config.(model := envModel);
    }

    if flagCli != "" {
      config := config.(backend := flagCli);
    }
    if flagModel != "" {
      config := config.(model := flagModel);
    }
    FirstOfThree(flagCli, envCli, ProjectCli(project), Claude);
    FirstOfThree(flagModel, envModel, ProjectModel(project), "");
  }

  /**
   * A missing or malformed project file is as if there were no project
   * layer: flag and environment alone decide, with the default behind them.
   */
  lemma MissingProjectFileIsNeutral(flagCli: string, envCli: string, flagModel: string, envModel: string)
    ensures FirstNonEmpty([flagCli, envCli, ProjectCli(None)], Claude) == FirstNonEmpty([flagCli, envCli], Claude)
    ensures FirstNonEmpty([flagModel, envModel, ProjectModel(None)], "") == FirstNonEmpty([flagModel, envModel], "")
  {
    FirstOfThree(flagCli, envCli, ProjectCli(None), Claude);
    FirstOfThree(flagModel, envModel, ProjectModel(None), "");
  }

  /** Only the two known backends are valid. */
  predicate IsValid(b: CLIBackend)
    ensures IsValid(b) <==> b in {Claude, Codex}
  {
    b == Claude || b == Codex
  }

  /** The backend's name as text: the identity on the underlying string. */
  function String(b: CLIBackend): (s: string)
    ensures s == b
  {
    b
  }
}
