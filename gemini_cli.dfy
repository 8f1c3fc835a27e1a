/** The gemini runner adapter (src/runners/gemini-cli.js): its command line and
    the reading of its JSON event stream. */
module GeminiCli {
  import opened Wrappers
  import opened Strings
  import opened Json
  import opened RunnerCommon

  /** The gemini settings; empty strings stand for unset ones. */
  datatype GeminiConfig = GeminiConfig(command: string, outputFormat: string, approvalMode: string, model: string)

  /** `buildGeminiRun`. */
  function BuildGeminiRun(prompt: string, config: GeminiConfig): (r: RunCommand)
    ensures var args := r.args;
      var a := if config.approvalMode != "" then 2 else 0;
      |args| == 4 + a + (if config.model != "" then 2 else 0)
      && args[..4] == ["--prompt", prompt, "--output-format", OutputFormat(config.outputFormat)]
      && (config.approvalMode != "" ==> args[4..6] == ["--approval-mode", config.approvalMode])
      && (config.model != "" ==> args[4 + a..6 + a] == ["--model", config.model])
    ensures r.command == config.command
    ensures r.redactedArgs == Redact(r.args, prompt)
    ensures prompt != PromptPlaceholder ==> r.redactedArgs[1] == PromptPlaceholder && prompt !in r.redactedArgs
  {
    var args := ["--prompt", prompt, "--output-format", OutputFormat(config.outputFormat)]
      + (if config.approvalMode != "" then ["--approval-mode", config.approvalMode] else [])
      + (if config.model != "" then ["--model", config.model] else []);
    assert prompt != PromptPlaceholder ==> prompt !in Redact(args, prompt) by {
      if prompt != PromptPlaceholder { RedactHidesPrompt(args, prompt); }
    }
    RunCommand(config.command, args, Redact(args, prompt))
  }

  /** The event type of a stream object. */
  function EventType(o: Json): Option<Json> { Get(o, "type") }

  /** `obj.tool_name || 'tool'`. */
  function ToolName(o: Json): (name: string)
    ensures !Truthy(Get(o, "tool_name")) ==> name == "tool"
    ensures Get(o, "tool_name").Some? && Get(o, "tool_name").value.JStr? && Get(o, "tool_name").value.s != []
            ==> name == Get(o, "tool_name").value.s
  {
    if Truthy(Get(o, "tool_name")) then TextOf(Get(o, "tool_name")) else "tool"
  }

  /** The last segment of `obj.parameters.file_path`, '' when there is none. */
  function FileBase(o: Json): (base: string)
    ensures '/' !in base
    ensures !Truthy(GetIn(Get(o, "parameters"), "file_path")) ==> base == ""
    ensures Truthy(GetIn(Get(o, "parameters"), "file_path"))
            ==> var path := TextOf(GetIn(Get(o, "parameters"), "file_path"));
                EndsWith(path, base) && ('/' in path ==> path[|path| - |base| - 1] == '/')
  {
    var path := GetIn(Get(o, "parameters"), "file_path");
    if Truthy(path) then LastSegment(TextOf(path)) else ""
  }

  /** The tool line: "tool:" and the tool name (default 'tool'), then a space
      and the last segment of the file path when one is given. */
  function ToolLine(o: Json): (text: string)
    ensures StartsWith(text, "tool:")
    ensures FileBase(o) == "" ==> text == "tool:" + ToolName(o)
    ensures FileBase(o) != "" ==> text == "tool:" + ToolName(o) + " " + FileBase(o)
  {
    var name := ToolName(o);
    var fp := FileBase(o);
    var text := "tool:" + name + (if fp != "" then " " + fp else "");
    ConcatParts("tool:", name + (if fp != "" then " " + fp else ""), "");
    assert text == "tool:" + (name + (if fp != "" then " " + fp else ""));
    assert fp != "" ==> text == "tool:" + name + " " + fp;
    text
  }

  /** `geminiParseLine`: `obj` is None when the line was not JSON. Gemini
      reports no token usage. */
  function GeminiParseLine(obj: Option<Json>): (r: Option<LineUpdate>)
    ensures !IsObjectValue(obj) ==> r.None?
    ensures r.Some? ==> r.value.usage.None? && r.value.blockedReason.None? && r.value.finalResult.None?
                        && r.value.updateText.Some?
    ensures IsObjectValue(obj) && EventType(obj.value) == Some(JStr("init"))
            ==> r.Some? && r.value.updateText == Some("init")
                && r.value.model == AsString(Get(obj.value, "model"))
                && r.value.sessionId == AsString(Get(obj.value, "session_id"))
    ensures IsObjectValue(obj) && EventType(obj.value) == Some(JStr("tool_use"))
            ==> r.Some? && r.value.updateText == Some(ToolLine(obj.value)) && r.value.assistantDelta.None?
    ensures r.Some? && r.value.assistantDelta.Some? ==>
              var o := obj.value;
              EventType(o) == Some(JStr("message")) && Get(o, "role") == Some(JStr("assistant"))
              && Get(o, "content").Some? && Get(o, "content").value.JStr?
              && !IsBlank(Get(o, "content").value.s)
              && r.value.assistantDelta == Some(if Truthy(Get(o, "delta")) then Get(o, "content").value.s
                                                else Trim(Get(o, "content").value.s) + "\n")
    ensures IsObjectValue(obj) && EventType(obj.value) == Some(JStr("message"))
            && Get(obj.value, "role") == Some(JStr("assistant"))
            && Get(obj.value, "content").Some? && Get(obj.value, "content").value.JStr?
            && IsBlank(Get(obj.value, "content").value.s)
            ==> r.None?
    ensures IsObjectValue(obj) && EventType(obj.value) == Some(JStr("message"))
            && Get(obj.value, "role") == Some(JStr("assistant"))
            && Get(obj.value, "content").Some? && Get(obj.value, "content").value.JStr?
            && !IsBlank(Get(obj.value, "content").value.s)
            ==> var content := Get(obj.value, "content").value.s;
                r.Some? && r.value.updateText == Some("assistant: " + Prefix(Trim(content), 160))
                && r.value.assistantDelta == Some(if Truthy(Get(obj.value, "delta")) then content else Trim(content) + "\n")
    ensures IsObjectValue(obj) && EventType(obj.value) !in {Some(JStr("init")), Some(JStr("tool_use")), Some(JStr("result"))}
            && !(EventType(obj.value) == Some(JStr("message")) && Get(obj.value, "role") == Some(JStr("assistant"))
                 && Get(obj.value, "content").Some? && Get(obj.value, "content").value.JStr?)
            ==> r.None?
    ensures IsObjectValue(obj) && EventType(obj.value) == Some(JStr("result"))
            ==> r.Some? && r.value.updateText == Some("result:" + (if Truthy(Get(obj.value, "status"))
                                                                  then TextOf(Get(obj.value, "status")) else "done"))
  {
    if !IsObjectValue(obj) then None
    else
      var o := obj.value;
      var t := EventType(o);
      if t == Some(JStr("init")) then
        Some(LineUpdate(AsString(Get(o, "session_id")), AsString(Get(o, "model")), Some("init"), None, None, None, None))
      else if t == Some(JStr("tool_use")) then
        Some(TextUpdate(ToolLine(o)))
      else if t == Some(JStr("message")) && Get(o, "role") == Some(JStr("assistant"))
              && Get(o, "content").Some? && Get(o, "content").value.JStr? then
        var content := Get(o, "content").value.s;
        var text := Trim(content);
        if text == [] then None
        else
          var u := AssistantUpdate(text, None);
          Some(u.(assistantDelta := Some(if Truthy(Get(o, "delta")) then content else text + "\n")))
      else if t == Some(JStr("result")) then
        Some(TextUpdate("result:" + (if Truthy(Get(o, "status")) then TextOf(Get(o, "status")) else "done")))
      else None
  }
}
