/** The cursor-agent runner adapter (src/runners/cursor-cli.js): its command
    line, the summary of a tool call, and the reading of its output lines. */
module CursorCli {
  import opened Wrappers
  import opened Strings
  import opened Json
  import opened TokenMeter
  import opened RunnerCommon

  /** The cursor settings; empty strings stand for unset ones. */
  datatype CursorConfig = CursorConfig(command: string, outputFormat: string, force: bool, model: string)

  /** `buildCursorRun`. */
  function BuildCursorRun(prompt: string, cwd: string, config: CursorConfig): (r: RunCommand)
    ensures |r.args| == 6 + (if config.force then 1 else 0) + (if config.model != "" then 2 else 0)
    ensures r.args[..3] == ["-p", "--output-format", OutputFormat(config.outputFormat)]
    ensures r.args[3] == "-f" <==> config.force
    ensures config.model != "" ==> var f := if config.force then 1 else 0;
              r.args[3 + f..5 + f] == ["--model", config.model]
    ensures r.args[|r.args| - 3..] == ["--workspace", cwd, prompt]
    ensures r.command == config.command
    ensures r.redactedArgs == Redact(r.args, prompt)
  {
    var args := ["-p", "--output-format", OutputFormat(config.outputFormat)]
      + (if config.force then ["-f"] else [])
      + (if config.model != "" then ["--model", config.model] else [])
      + ["--workspace", cwd, prompt];
    assert args[|args| - 3..] == ["--workspace", cwd, prompt];
    assert args[3] == if config.force then "-f" else if config.model != "" then "--model" else "--workspace";
    RunCommand(config.command, args, Redact(args, prompt))
  }

  /** `toolCall[tool]?.args?.[key]`. */
  function ToolArg(toolCall: Json, tool: string, key: string): Option<Json>
  {
    GetIn(GetIn(Get(toolCall, tool), "args"), key)
  }

  /** The first key of an object or array (`Object.keys(v)[0]`): the first field
      of an object, "0" for a non-empty array. */
  function FirstKey(v: Json): Option<string>
  {
    if v.JObj? && v.fields != [] then Some(v.fields[0].0)
    else if v.JArr? && v.items != [] then Some("0")
    else None
  }

  /** `summarizeToolCall`: a read, then an edit, then a shell call, else the
      first key of an unknown shape. */
  function SummarizeToolCall(toolCall: Option<Json>): (r: Option<string>)
    ensures !IsObjectValue(toolCall) ==> r.None?
    ensures IsObjectValue(toolCall) && Truthy(ToolArg(toolCall.value, "readToolCall", "path"))
            ==> r == Some("Read: " + LastSegment(TextOf(ToolArg(toolCall.value, "readToolCall", "path"))))
    ensures IsObjectValue(toolCall) && !Truthy(ToolArg(toolCall.value, "readToolCall", "path"))
            && Truthy(ToolArg(toolCall.value, "editToolCall", "path"))
            ==> r == Some("Edit: " + LastSegment(TextOf(ToolArg(toolCall.value, "editToolCall", "path"))))
    ensures IsObjectValue(toolCall) && !Truthy(ToolArg(toolCall.value, "readToolCall", "path"))
            && !Truthy(ToolArg(toolCall.value, "editToolCall", "path"))
            && Truthy(ToolArg(toolCall.value, "bashToolCall", "command"))
            ==> r.Some? && StartsWith(r.value, "Bash: ") && |r.value| <= 6 + 120
    ensures IsObjectValue(toolCall) && !Truthy(ToolArg(toolCall.value, "readToolCall", "path"))
            && !Truthy(ToolArg(toolCall.value, "editToolCall", "path"))
            && !Truthy(ToolArg(toolCall.value, "bashToolCall", "command"))
            ==> (r.Some? <==> FirstKey(toolCall.value).Some? && FirstKey(toolCall.value).value != [])
                && (r.Some? ==> r.value == "tool:" + FirstKey(toolCall.value).value)
  {
    if !IsObjectValue(toolCall) then None
    else
      var tc := toolCall.value;
      if Truthy(ToolArg(tc, "readToolCall", "path")) then
        Some("Read: " + LastSegment(TextOf(ToolArg(tc, "readToolCall", "path"))))
      else if Truthy(ToolArg(tc, "editToolCall", "path")) then
        Some("Edit: " + LastSegment(TextOf(ToolArg(tc, "editToolCall", "path"))))
      else if Truthy(ToolArg(tc, "bashToolCall", "command")) then
        var text := "Bash: " + Prefix(TextOf(ToolArg(tc, "bashToolCall", "command")), 120);
        assert StartsWith(text, "Bash: ") by { ConcatParts("Bash: ", Prefix(TextOf(ToolArg(tc, "bashToolCall", "command")), 120), ""); }
        Some(text)
      else
        var key := FirstKey(tc);
        if key.Some? && key.value != [] then Some("tool:" + key.value) else None
  }

  const QuotaMarker: string := "You've hit your usage limit"

  /** The event type of a stream object. */
  function EventType(o: Json): Option<Json> { Get(o, "type") }

  /** `cursorParseLine`: `obj` is None when the line was not JSON, `rawLine`
      None when there was no raw line. */
  function CursorParseLine(obj: Option<Json>, rawLine: Option<string>): (r: Option<LineUpdate>)
    ensures rawLine.Some? && Contains(rawLine.value, QuotaMarker)
            ==> r.Some? && r.value.blockedReason == Some("quota") && r.value.updateText == Some("blocked:quota")
    ensures r.Some? && r.value.blockedReason.Some? ==> rawLine.Some? && Contains(rawLine.value, QuotaMarker)
    ensures !(rawLine.Some? && Contains(rawLine.value, QuotaMarker)) && !IsObjectValue(obj) ==> r.None?
    ensures r.Some? && r.value.blockedReason.None? ==> r.value.usage == NormalizeTokenUsage(obj.value, "provider")
    ensures !(rawLine.Some? && Contains(rawLine.value, QuotaMarker)) && IsObjectValue(obj)
            && EventType(obj.value) == Some(JStr("tool_call")) && Truthy(Get(obj.value, "tool_call"))
            ==> var summary := SummarizeToolCall(Get(obj.value, "tool_call"));
                (summary.Some? && summary.value != [] ==> r.Some? && r.value.updateText == summary)
                && (!(summary.Some? && summary.value != []) ==> r.None?)
    ensures !(rawLine.Some? && Contains(rawLine.value, QuotaMarker)) && IsObjectValue(obj)
            && EventType(obj.value) == Some(JStr("assistant"))
            ==> var text := ContentText(GetIn(Get(obj.value, "message"), "content"));
                (IsBlank(text) ==> r.None?)
                && (!IsBlank(text) ==> r.Some? && r.value.assistantDelta == Some(Trim(text) + "\n"))
    ensures !(rawLine.Some? && Contains(rawLine.value, QuotaMarker)) && IsObjectValue(obj)
            && EventType(obj.value) == Some(JStr("system")) && Get(obj.value, "subtype") == Some(JStr("init"))
            ==> r.Some? && r.value.updateText == Some("init")
                && r.value.model == AsString(Get(obj.value, "model")) && r.value.sessionId == AsString(Get(obj.value, "session_id"))
    ensures !(rawLine.Some? && Contains(rawLine.value, QuotaMarker)) && IsObjectValue(obj)
            && EventType(obj.value) == Some(JStr("result"))
            ==> r == Some(ResultUpdate(obj.value, NormalizeTokenUsage(obj.value, "provider")))
    ensures !(rawLine.Some? && Contains(rawLine.value, QuotaMarker)) && IsObjectValue(obj)
            && !(EventType(obj.value) == Some(JStr("system")) && Get(obj.value, "subtype") == Some(JStr("init")))
            && !(EventType(obj.value) == Some(JStr("tool_call")) && Truthy(Get(obj.value, "tool_call")))
            && EventType(obj.value) !in {Some(JStr("assistant")), Some(JStr("result"))}
            ==> (r.Some? <==> NormalizeTokenUsage(obj.value, "provider").Some?)
                && (r.Some? ==> r.value == LineUpdate(None, None, None, None, None, None, r.value.usage))
  {
    if rawLine.Some? && Contains(rawLine.value, QuotaMarker) then
      Some(LineUpdate(None, None, Some("blocked:quota"), None, None, Some("quota"), None))
    else if !IsObjectValue(obj) then None
    else
      var o := obj.value;
      var usage := NormalizeTokenUsage(o, "provider");
      var t := EventType(o);
      if t == Some(JStr("system")) && Get(o, "subtype") == Some(JStr("init")) then
        Some(LineUpdate(AsString(Get(o, "session_id")), AsString(Get(o, "model")), Some("init"), None, None, None, usage))
      else if t == Some(JStr("tool_call")) && Truthy(Get(o, "tool_call")) then
        var summary := SummarizeToolCall(Get(o, "tool_call"));
        if summary.Some? && summary.value != [] then Some(LineUpdate(None, None, summary, None, None, None, usage))
        else None
      else if t == Some(JStr("assistant")) then
        var text := Trim(ContentText(GetIn(Get(o, "message"), "content")));
        if text == [] then None else Some(AssistantUpdate(text, usage))
      else if t == Some(JStr("result")) then Some(ResultUpdate(o, usage))
      else if usage.Some? then Some(LineUpdate(None, None, None, None, None, None, usage))
      else None
  }
}
