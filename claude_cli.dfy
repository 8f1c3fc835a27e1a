/** The claude-cli runner adapter (src/runners/claude-cli.js): its command
    line, the one-line summaries of tool calls, and the reading of its JSON
    event stream. */
module ClaudeCli {
  import opened Wrappers
  import opened Strings
  import opened Json
  import opened TokenMeter
  import opened RunnerCommon

  /** The claude settings; empty strings stand for unset ones. */
  datatype ClaudeConfig = ClaudeConfig(
    command: string, outputFormat: string, verbose: bool, permissionMode: string, model: string)

  /** The argument list `buildClaudeRun` assembles: `-p`, the verbose flag
      (forced on for stream-json), the output format, the optional permission
      mode and model, and the prompt last. */
  function ClaudeArgs(prompt: string, config: ClaudeConfig): (args: seq<string>)
    ensures var verbose := config.verbose || OutputFormat(config.outputFormat) == "stream-json";
      var v := if verbose then 1 else 0;
      |args| == 4 + v + (if config.permissionMode != "" then 2 else 0) + (if config.model != "" then 2 else 0)
      && args[0] == "-p"
      && (args[1] == "--verbose" <==> verbose)
      && args[1 + v..3 + v] == ["--output-format", OutputFormat(config.outputFormat)]
      && (config.permissionMode != "" ==> args[3 + v..5 + v] == ["--permission-mode", config.permissionMode])
      && (config.model != "" ==> args[|args| - 3..|args| - 1] == ["--model", config.model])
      && args[|args| - 1] == prompt
  {
    var format := OutputFormat(config.outputFormat);
    var head := ["-p"] + (if config.verbose || format == "stream-json" then ["--verbose"] else [])
                + ["--output-format", format];
    var tail := (if config.model != "" then ["--model", config.model] else []) + [prompt];
    var args := head + (if config.permissionMode != "" then ["--permission-mode", config.permissionMode] else []) + tail;
    assert head[|head| - 2..] == ["--output-format", format];
    assert args[|args| - 1] == prompt;
    assert config.model != "" ==> args[|args| - 3..|args| - 1] == tail[..2];
    args
  }

  /** `buildClaudeRun`: the command, its arguments and the arguments as
      recorded, with the prompt replaced. */
  function BuildClaudeRun(prompt: string, config: ClaudeConfig): (r: RunCommand)
    ensures r.command == config.command
    ensures r.args == ClaudeArgs(prompt, config) && r.args[|r.args| - 1] == prompt
    ensures r.redactedArgs == Redact(r.args, prompt)
  {
    var args := ClaudeArgs(prompt, config);
    RunCommand(config.command, args, Redact(args, prompt))
  }

  predicate IsToolUse(b: Json) { Get(b, "type") == Some(JStr("tool_use")) }

  /** The tool's name, 'tool' when missing. */
  function ToolName(b: Json): string
  {
    if Truthy(Get(b, "name")) then TextOf(Get(b, "name")) else "tool"
  }

  /** A field of the tool's input (`(b.input || {})[key]`). */
  function InputField(b: Json, key: string): Option<Json>
  {
    if Truthy(Get(b, "input")) then Get(Get(b, "input").value, key) else None
  }

  /** The one-line summary of a `tool_use` block. */
  function ToolSummary(b: Json): (r: Option<string>)
    ensures r.Some? <==> IsToolUse(b)
    ensures r.Some? && ToolName(b) == "Bash" && Truthy(InputField(b, "command")) ==>
              StartsWith(r.value, "Bash: ") && |r.value| <= 6 + 120
    ensures r.Some? && ToolName(b) in {"Read", "Edit", "Write"} && Truthy(InputField(b, "file_path")) ==>
              r.value == ToolName(b) + ": " + LastSegment(TextOf(InputField(b, "file_path")))
    ensures r.Some? && ToolName(b) in {"Glob", "Grep"} && Truthy(InputField(b, "pattern")) ==>
              |r.value| <= 6 + 80
  {
    if !IsToolUse(b) then None
    else
      var name := ToolName(b);
      if name == "Bash" && Truthy(InputField(b, "command")) then
        var text := "Bash: " + Prefix(TextOf(InputField(b, "command")), 120);
        assert StartsWith(text, "Bash: ") by { ConcatParts("Bash: ", Prefix(TextOf(InputField(b, "command")), 120), ""); }
        Some(text)
      else if (name == "Read" || name == "Edit" || name == "Write") && Truthy(InputField(b, "file_path")) then
        Some(name + ": " + LastSegment(TextOf(InputField(b, "file_path"))))
      else if name == "Glob" && Truthy(InputField(b, "pattern")) then
        Some("Glob: " + Prefix(TextOf(InputField(b, "pattern")), 80))
      else if name == "Grep" && Truthy(InputField(b, "pattern")) then
        Some("Grep: " + Prefix(TextOf(InputField(b, "pattern")), 80))
      else Some(name)
  }

  /** The summaries of the `tool_use` blocks, in order. */
  function Summaries(blocks: seq<Json>): (r: seq<string>)
    ensures |r| <= |blocks|
    ensures r == [] <==> forall i :: 0 <= i < |blocks| ==> !IsToolUse(blocks[i])
  {
    if blocks == [] then []
    else
      var init := blocks[..|blocks| - 1];
      var b := blocks[|blocks| - 1];
      assert forall i :: 0 <= i < |init| ==> init[i] == blocks[i];
      Summaries(init) + (if ToolSummary(b).Some? then [ToolSummary(b).value] else [])
  }

  /** What `summarizeToolUseBlocks` returns: the first three summaries joined
      by " | ", or nothing when the value is not an array or has no tool call. */
  function ToolUseSummary(blocks: Option<Json>): (r: Option<string>)
    ensures r.None? <==> !(blocks.Some? && blocks.value.JArr?)
                         || forall i :: 0 <= i < |blocks.value.items| ==> !IsToolUse(blocks.value.items[i])
  {
    if !(blocks.Some? && blocks.value.JArr?) then None
    else
      var s := Summaries(blocks.value.items);
      if s == [] then None else Some(Join(s[..if |s| < 3 then |s| else 3], " | "))
  }

  /** `summarizeToolUseBlocks`. */
  method SummarizeToolUseBlocks(blocks: Option<Json>) returns (r: Option<string>)
    ensures r == ToolUseSummary(blocks)
  {
    if !(blocks.Some? && blocks.value.JArr?) {
      return None;
    }
    var items := blocks.value.items;
    var summaries: seq<string> := [];
    var i := 0;
    while i < |items|
      invariant 0 <= i <= |items|
      invariant summaries == Summaries(items[..i])
    {
      assert items[..i + 1][..i] == items[..i];
      var s := ToolSummary(items[i]);
      if s.Some? {
        summaries := summaries + [s.value];
      }
      i := i + 1;
    }
    assert items[..|items|] == items;
    if |summaries| == 0 {
      return None;
    }
    r := Some(Join(summaries[..if |summaries| < 3 then |summaries| else 3], " | "));
  }

  /** The event type of a stream object. */
  function EventType(o: Json): Option<Json> { Get(o, "type") }

  /** The content blocks of an assistant event (`obj.message?.content`). */
  function Blocks(o: Json): Option<Json> { GetIn(Get(o, "message"), "content") }

  /** `claudeParseLine`: `obj` is None when the line was not JSON. */
  function ClaudeParseLine(obj: Option<Json>): (r: Option<LineUpdate>)
    ensures !IsObjectValue(obj) ==> r.None?
    ensures r.Some? ==> r.value.usage == NormalizeTokenUsage(obj.value, "provider") && r.value.blockedReason.None?
    ensures IsObjectValue(obj) && EventType(obj.value) == Some(JStr("system")) && Get(obj.value, "subtype") == Some(JStr("init"))
            ==> r.Some? && r.value.updateText == Some("init")
                && r.value.model == AsString(Get(obj.value, "model")) && r.value.sessionId == AsString(Get(obj.value, "session_id"))
    ensures IsObjectValue(obj) && EventType(obj.value) == Some(JStr("assistant"))
            ==> var summary := ToolUseSummary(Blocks(obj.value));
                (summary.Some? && summary.value != [] ==> r.Some? && r.value.updateText == summary && r.value.assistantDelta.None?)
                && (!(summary.Some? && summary.value != []) && IsBlank(ContentText(Blocks(obj.value))) ==> r.None?)
                && (!(summary.Some? && summary.value != []) && !IsBlank(ContentText(Blocks(obj.value))) ==>
                      r.Some? && r.value.assistantDelta == Some(Trim(ContentText(Blocks(obj.value))) + "\n"))
    ensures IsObjectValue(obj) && EventType(obj.value) == Some(JStr("result"))
            ==> r == Some(ResultUpdate(obj.value, NormalizeTokenUsage(obj.value, "provider")))
    ensures IsObjectValue(obj) && !(EventType(obj.value) == Some(JStr("system")) && Get(obj.value, "subtype") == Some(JStr("init")))
            && EventType(obj.value) !in {Some(JStr("assistant")), Some(JStr("result"))}
            ==> (r.Some? <==> NormalizeTokenUsage(obj.value, "provider").Some?)
                && (r.Some? ==> r.value == LineUpdate(None, None, None, None, None, None, r.value.usage))
  {
    if !IsObjectValue(obj) then None
    else
      var o := obj.value;
      var usage := NormalizeTokenUsage(o, "provider");
      var t := EventType(o);
      if t == Some(JStr("system")) && Get(o, "subtype") == Some(JStr("init")) then
        Some(LineUpdate(AsString(Get(o, "session_id")), AsString(Get(o, "model")), Some("init"), None, None, None, usage))
      else if t == Some(JStr("assistant")) then
        var summary := ToolUseSummary(Blocks(o));
        if summary.Some? && summary.value != [] then
          Some(LineUpdate(None, None, summary, None, None, None, usage))
        else
          var text := Trim(ContentText(Blocks(o)));
          if text == [] then None else Some(AssistantUpdate(text, usage))
      else if t == Some(JStr("result")) then Some(ResultUpdate(o, usage))
      else if usage.Some? then Some(LineUpdate(None, None, None, None, None, None, usage))
      else None
  }
}
