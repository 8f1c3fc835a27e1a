/** The codex-cli runner adapter (src/runners/codex-cli.js): its command line
    and the reading of its JSON event stream. */
module CodexCli {
  import opened Wrappers
  import opened Strings
  import opened Json
  import opened RunnerCommon

  /** The codex settings; an empty sandbox mode stands for an unset one. */
  datatype CodexConfig = CodexConfig(
    command: string, bypassApprovals: bool, skipGitRepoCheck: bool, sandboxMode: string)

  datatype CodexRun = CodexRun(run: RunCommand, lastPath: string)

  const BypassFlag: string := "--dangerously-bypass-approvals-and-sandbox"
  const SkipGitFlag: string := "--skip-git-repo-check"

  /** Where codex writes its last message for a run. */
  function LastMessagePath(artifactsDir: string): string
  {
    artifactsDir + "/last.txt"
  }

  /** `buildCodexRun`. `resolve(artifactsDir, 'last.txt')` is the directory
      joined with the file name. */
  function BuildCodexRun(prompt: string, artifactsDir: string, config: CodexConfig): (r: CodexRun)
    ensures var args := r.run.args;
      var optional := (if config.bypassApprovals then 1 else 0) + (if config.skipGitRepoCheck then 1 else 0)
                      + (if config.sandboxMode != "" then 2 else 0);
      |args| == 5 + optional
      && args[0] == "exec"
      && args[|args| - 4..] == ["--json", "-o", r.lastPath, prompt]
      && (config.bypassApprovals ==> args[1] == BypassFlag)
      && (config.skipGitRepoCheck ==> args[if config.bypassApprovals then 2 else 1] == SkipGitFlag)
      && (config.sandboxMode != "" ==> args[|args| - 6..|args| - 4] == ["-s", config.sandboxMode])
    ensures r.lastPath == LastMessagePath(artifactsDir)
    ensures r.run.command == config.command
    ensures r.run.redactedArgs == Redact(r.run.args, prompt)
  {
    var lastPath := LastMessagePath(artifactsDir);
    var flags := (if config.bypassApprovals then [BypassFlag] else [])
                 + (if config.skipGitRepoCheck then [SkipGitFlag] else [])
                 + (if config.sandboxMode != "" then ["-s", config.sandboxMode] else []);
    var args := ["exec"] + flags + ["--json", "-o", lastPath, prompt];
    assert args[|args| - 4..] == ["--json", "-o", lastPath, prompt];
    CodexRun(RunCommand(config.command, args, Redact(args, prompt)), lastPath)
  }

  /** The event type of a stream object. */
  function EventType(o: Json): Option<Json> { Get(o, "type") }

  predicate IsItemEvent(o: Json)
  {
    (EventType(o) == Some(JStr("item.started")) || EventType(o) == Some(JStr("item.completed")))
    && IsObjectValue(Get(o, "item"))
  }

  /** `codexParseLine`: `obj` is None when the line was not JSON. */
  function CodexParseLine(obj: Option<Json>): (r: Option<LineUpdate>)
    ensures !IsObjectValue(obj) ==> r.None?
    ensures r.Some? ==> r.value.updateText.Some? && r.value.blockedReason.None? && r.value.usage.None?
    ensures r.Some? && r.value.sessionId.Some? ==>
              EventType(obj.value) == Some(JStr("thread.started")) && Truthy(Get(obj.value, "thread_id"))
    ensures r.Some? && r.value.assistantDelta.Some? ==>
              IsObjectValue(obj) && IsItemEvent(obj.value)
              && var text := Trim(StringOrEmpty(Get(Get(obj.value, "item").value, "text")));
                 text != [] && r.value.assistantDelta == Some(text + "\n")
                 && StartsWith(r.value.updateText.value, "assistant: ") && |r.value.updateText.value| <= 171
    ensures IsObjectValue(obj) && IsItemEvent(obj.value)
            && Get(Get(obj.value, "item").value, "type") == Some(JStr("command_execution"))
            && Truthy(Get(Get(obj.value, "item").value, "command"))
            ==> var it := Get(obj.value, "item").value;
                var head := "Bash: " + Prefix(TextOf(Get(it, "command")), 120);
                r.Some? && StartsWith(r.value.updateText.value, head)
                && (EventType(obj.value) == Some(JStr("item.completed")) && Get(it, "exit_code").Some?
                    && Get(it, "exit_code").value.JNum?
                    ==> r.value.updateText.value == head + " (exit " + IntToString(Get(it, "exit_code").value.n) + ")")
    ensures IsObjectValue(obj) && IsItemEvent(obj.value)
            && Get(Get(obj.value, "item").value, "type") == Some(JStr("agent_message"))
            && Get(Get(obj.value, "item").value, "text").Some?
            && Get(Get(obj.value, "item").value, "text").value.JStr?
            && IsBlank(Get(Get(obj.value, "item").value, "text").value.s)
            ==> r.None?
    ensures IsObjectValue(obj) && EventType(obj.value) == Some(JStr("thread.started")) && Truthy(Get(obj.value, "thread_id"))
            ==> r.Some? && r.value.sessionId == Some(TextOf(Get(obj.value, "thread_id")))
                && r.value.updateText == Some("thread.started") && r.value.assistantDelta.None?
    ensures IsObjectValue(obj) && IsItemEvent(obj.value)
            && Get(Get(obj.value, "item").value, "type") == Some(JStr("agent_message"))
            && Get(Get(obj.value, "item").value, "text").Some?
            && Get(Get(obj.value, "item").value, "text").value.JStr?
            && !IsBlank(Get(Get(obj.value, "item").value, "text").value.s)
            ==> var text := Trim(Get(Get(obj.value, "item").value, "text").value.s);
                r.Some? && r.value.assistantDelta == Some(text + "\n")
                && r.value.updateText == Some("assistant: " + Prefix(text, 160))
    ensures IsObjectValue(obj) && IsItemEvent(obj.value)
            && Get(Get(obj.value, "item").value, "type") == Some(JStr("command_execution"))
            && Truthy(Get(Get(obj.value, "item").value, "command"))
            && !(EventType(obj.value) == Some(JStr("item.completed"))
                 && Get(Get(obj.value, "item").value, "exit_code").Some?
                 && Get(Get(obj.value, "item").value, "exit_code").value.JNum?)
            ==> r.Some? && r.value.updateText == Some("Bash: " + Prefix(TextOf(Get(Get(obj.value, "item").value, "command")), 120))
    ensures IsObjectValue(obj) && IsItemEvent(obj.value)
            && !(Get(Get(obj.value, "item").value, "type") == Some(JStr("command_execution"))
                 && Truthy(Get(Get(obj.value, "item").value, "command")))
            && !(Get(Get(obj.value, "item").value, "type") == Some(JStr("agent_message"))
                 && Get(Get(obj.value, "item").value, "text").Some?
                 && Get(Get(obj.value, "item").value, "text").value.JStr?)
            ==> var itemType := Get(Get(obj.value, "item").value, "type");
                (Truthy(itemType) ==> r.Some? && r.value.updateText == Some(TextOf(EventType(obj.value)) + ": " + TextOf(itemType)))
                && (!Truthy(itemType) ==> r.None?)
    ensures IsObjectValue(obj) && EventType(obj.value) == Some(JStr("turn.completed"))
            ==> r.Some? && r.value.updateText == Some("turn.completed") && r.value.sessionId.None? && r.value.assistantDelta.None?
    ensures IsObjectValue(obj) && !IsItemEvent(obj.value)
            && !(EventType(obj.value) == Some(JStr("thread.started")) && Truthy(Get(obj.value, "thread_id")))
            && EventType(obj.value) != Some(JStr("turn.completed"))
            ==> r.None?
  {
    if !IsObjectValue(obj) then None
    else
      var o := obj.value;
      var t := EventType(o);
      if t == Some(JStr("thread.started")) && Truthy(Get(o, "thread_id")) then
        Some(LineUpdate(Some(TextOf(Get(o, "thread_id"))), None, Some("thread.started"), None, None, None, None))
      else if IsItemEvent(o) then
        var it := Get(o, "item").value;
        var itemType := Get(it, "type");
        if itemType == Some(JStr("command_execution")) && Truthy(Get(it, "command")) then
          var head := "Bash: " + Prefix(TextOf(Get(it, "command")), 120);
          var exitCode := Get(it, "exit_code");
          if t == Some(JStr("item.completed")) && exitCode.Some? && exitCode.value.JNum? then
            var text := head + " (exit " + IntToString(exitCode.value.n) + ")";
            assert StartsWith(text, head) by { ConcatParts(head, " (exit " + IntToString(exitCode.value.n) + ")", ""); }
            Some(TextUpdate(text))
          else
            assert StartsWith(head, head) by { ConcatParts(head, "", ""); }
            Some(TextUpdate(head))
        else if itemType == Some(JStr("agent_message")) && Get(it, "text").Some? && Get(it, "text").value.JStr? then
          var text := Trim(Get(it, "text").value.s);
          if text == [] then None else Some(AssistantUpdate(text, None))
        else if Truthy(itemType) then
          Some(TextUpdate(TextOf(t) + ": " + TextOf(itemType)))
        else None
      else if t == Some(JStr("turn.completed")) then Some(TextUpdate("turn.completed"))
      else None
  }
}
