/** The runner registry (src/runners/index.js): `getRunner` maps a runner kind
    to the adapter that builds its command line and reads its output. */
module Runners {
  import opened Wrappers
  import opened Json
  import opened RunnerCommon
  import CodexCli
  import ClaudeCli
  import CursorCli
  import GeminiCli
  import DesktopAgent

  /** The five runner kinds the registry knows. */
  datatype RunnerKind = Codex | Claude | Cursor | Gemini | Desktop

  function KindName(k: RunnerKind): (name: string)
  {
    match k
    case Codex => "codex-cli"
    case Claude => "claude-cli"
    case Cursor => "cursor-cli"
    case Gemini => "gemini-cli"
    case Desktop => "desktop-agent"
  }

  const KindNames: set<string> := {"codex-cli", "claude-cli", "cursor-cli", "gemini-cli", "desktop-agent"}

  /** The registered adapter: the `kind` field echoes the requested name. */
  datatype Runner = Runner(kind: string, runner: RunnerKind)

  /** `getRunner`: a `switch` over the five names, `null` for anything else. */
  function GetRunner(kind: string): (r: Option<Runner>)
    ensures r.Some? <==> kind in KindNames
    ensures r.Some? ==> r.value.kind == kind && KindName(r.value.runner) == kind
  {
    if kind == "codex-cli" then Some(Runner(kind, Codex))
    else if kind == "claude-cli" then Some(Runner(kind, Claude))
    else if kind == "cursor-cli" then Some(Runner(kind, Cursor))
    else if kind == "gemini-cli" then Some(Runner(kind, Gemini))
    else if kind == "desktop-agent" then Some(Runner(kind, Desktop))
    else None
  }

  /** `isRunnerKindSupported(kind)` without options, as the rest of the
      program uses it: the registry has an adapter for the name. */
  predicate IsSupported(kind: string) { GetRunner(kind).Some? }

  /** The names the registry file exports. */
  const IndexExports: set<string> := {"getRunner"}

  /** The orchestrator and the inbound core import `isRunnerKindSupported` and
      `listSupportedRunnerKinds` from the registry, which does not export them. */
  lemma SupportCheckNotExported()
    ensures "isRunnerKindSupported" !in IndexExports && "listSupportedRunnerKinds" !in IndexExports
    ensures "getRunner" in IndexExports
  {
  }

  /** `isRunnerKindSupported(kind, { includeAuto })` as its callers use it: a
      registered kind, or "auto" when `includeAuto` is set. */
  predicate IsKindSupported(kind: string, includeAuto: bool)
  {
    GetRunner(kind).Some? || (includeAuto && kind == "auto")
  }

  /** `listSupportedRunnerKinds({ includeAuto })`: each supported name once. */
  function ListSupportedRunnerKinds(includeAuto: bool): (names: seq<string>)
    ensures forall k :: k in names <==> IsKindSupported(k, includeAuto)
    ensures forall i, j :: 0 <= i < j < |names| ==> names[i] != names[j]
  {
    ["codex-cli", "claude-cli", "cursor-cli", "gemini-cli", "desktop-agent"] + (if includeAuto then ["auto"] else [])
  }

  /** Without `includeAuto` the check is `IsSupported`; with it, "auto" is
      accepted as well and nothing else is added. */
  lemma SupportedWithAuto(kind: string)
    ensures IsKindSupported(kind, false) <==> IsSupported(kind)
    ensures IsKindSupported(kind, true) <==> IsSupported(kind) || kind == "auto"
    ensures IsKindSupported("auto", true) && !IsKindSupported("auto", false)
  {
  }

  /** Every kind's name finds that kind again, and 'auto' is not a runner. */
  lemma GetRunnerRoundTrip(k: RunnerKind)
    ensures GetRunner(KindName(k)) == Some(Runner(KindName(k), k))
    ensures KindName(k) != "auto" && !IsSupported("auto")
  {
  }

  /** The settings every adapter's `build` reads; the node executable and the
      agent script path are process facts and are parameters too. */
  datatype BuildSettings = BuildSettings(
    codex: CodexCli.CodexConfig, claude: ClaudeCli.ClaudeConfig, cursor: CursorCli.CursorConfig,
    gemini: GeminiCli.GeminiConfig, nodePath: string, scriptPath: string)

  /** What the executor hands `build`. */
  datatype BuildInput = BuildInput(prompt: string, cwd: string, artifactsDir: string)

  /** `runner.build(...)` for the registered kind. */
  function Build(k: RunnerKind, input: BuildInput, settings: BuildSettings): (r: RunCommand)
    ensures k == Codex ==> r == CodexCli.BuildCodexRun(input.prompt, input.artifactsDir, settings.codex).run
    ensures k == Claude ==> r == ClaudeCli.BuildClaudeRun(input.prompt, settings.claude)
    ensures k == Cursor ==> r == CursorCli.BuildCursorRun(input.prompt, input.cwd, settings.cursor)
    ensures k == Gemini ==> r == GeminiCli.BuildGeminiRun(input.prompt, settings.gemini)
    ensures k == Desktop ==> r == DesktopAgent.BuildDesktopAgentRun(input.prompt, input.cwd, input.artifactsDir,
                                                                   settings.nodePath, settings.scriptPath)
    ensures k != Desktop ==> r.redactedArgs == Redact(r.args, input.prompt)
  {
    match k
    case Codex => CodexCli.BuildCodexRun(input.prompt, input.artifactsDir, settings.codex).run
    case Claude => ClaudeCli.BuildClaudeRun(input.prompt, settings.claude)
    case Cursor => CursorCli.BuildCursorRun(input.prompt, input.cwd, settings.cursor)
    case Gemini => GeminiCli.BuildGeminiRun(input.prompt, settings.gemini)
    case Desktop => DesktopAgent.BuildDesktopAgentRun(input.prompt, input.cwd, input.artifactsDir,
                                                      settings.nodePath, settings.scriptPath)
  }

  /** The context object `parseLine` receives: the parsed line (None when it
      was not JSON) and the raw line (None when absent). */
  datatype LineContext = LineContext(obj: Option<Json>, rawLine: Option<string>)

  /** `runner.parseLine(ctx)`: the kind's own parser, given the context unchanged. */
  function ParseLine(k: RunnerKind, ctx: LineContext): (r: Option<LineUpdate>)
    ensures k == Codex ==> r == CodexCli.CodexParseLine(ctx.obj)
    ensures k == Claude ==> r == ClaudeCli.ClaudeParseLine(ctx.obj)
    ensures k == Cursor ==> r == CursorCli.CursorParseLine(ctx.obj, ctx.rawLine)
    ensures k == Gemini ==> r == GeminiCli.GeminiParseLine(ctx.obj)
    ensures k == Desktop ==> r == DesktopAgent.DesktopAgentParseLine(ctx.obj, ctx.rawLine.GetOr(""))
    ensures r.Some? && r.value.blockedReason.Some? ==> k == Cursor || k == Desktop
  {
    match k
    case Codex => CodexCli.CodexParseLine(ctx.obj)
    case Claude => ClaudeCli.ClaudeParseLine(ctx.obj)
    case Cursor => CursorCli.CursorParseLine(ctx.obj, ctx.rawLine)
    case Gemini => GeminiCli.GeminiParseLine(ctx.obj)
    case Desktop => DesktopAgent.DesktopAgentParseLine(ctx.obj, ctx.rawLine.GetOr(""))
  }

  /** A line that is not a JSON object is dropped by every adapter except
      cursor's quota check and the desktop agent's raw fallback. */
  lemma NonObjectLines(k: RunnerKind, ctx: LineContext)
    requires !IsObjectValue(ctx.obj)
    ensures k != Cursor ==> ParseLine(k, ctx).None?
    ensures k == Cursor && ParseLine(k, ctx).Some? ==> ParseLine(k, ctx).value.blockedReason == Some("quota")
  {
  }
}
