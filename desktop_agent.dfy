/** The desktop-agent runner adapter (src/runners/desktop-agent.js): the
    command line that starts the agent script under node, and the reading of
    the JSON lines the script writes. */
module DesktopAgent {
  import opened Wrappers
  import opened Strings
  import opened Json
  import opened RunnerCommon

  /** Hides every argument that directly follows a '--prompt' flag. */
  function RedactAfterPromptFlag(args: seq<string>): (r: seq<string>)
    ensures |r| == |args|
    ensures forall i :: 0 <= i < |args| ==>
              r[i] == (if i > 0 && args[i - 1] == "--prompt" then PromptPlaceholder else args[i])
  {
    seq(|args|, i requires 0 <= i < |args| => if i > 0 && args[i - 1] == "--prompt" then PromptPlaceholder else args[i])
  }

  /** `buildDesktopAgentRun`. The node executable and the absolute path of the
      agent script depend on the process and are parameters. */
  function BuildDesktopAgentRun(prompt: string, cwd: string, artifactsDir: string,
                                nodePath: string, scriptPath: string): (r: RunCommand)
    ensures r.command == nodePath
    ensures r.args == [scriptPath, "--prompt", prompt, "--cwd", cwd, "--artifacts", artifactsDir]
    ensures |r.redactedArgs| == 7 && r.redactedArgs[2] == PromptPlaceholder
    ensures scriptPath != "--prompt" && prompt != "--prompt" && cwd != "--prompt" ==>
              r.redactedArgs == [scriptPath, "--prompt", PromptPlaceholder, "--cwd", cwd, "--artifacts", artifactsDir]
  {
    var args := [scriptPath, "--prompt", prompt, "--cwd", cwd, "--artifacts", artifactsDir];
    RunCommand(nodePath, args, RedactAfterPromptFlag(args))
  }

  /** The event type of a JSON line. */
  function EventType(o: Json): Option<Json> { Get(o, "type") }

  /** The blocked reason: `reason`, else `blockedReason`, else 'blocked'. */
  function BlockedReason(o: Json): (reason: string)
  {
    var v := FirstTruthy([Get(o, "reason"), Get(o, "blockedReason")]);
    if v.Some? then TextOf(v) else "blocked"
  }

  /** The final text: `text`, else `final_text`, else `summary`. */
  function FinalText(o: Json): Option<Json>
  {
    FirstTruthy([Get(o, "text"), Get(o, "final_text"), Get(o, "summary")])
  }

  const MaxRawLine: nat := 200

  /** `desktopAgentParseLine`: `obj` is None when the line was not JSON. */
  function DesktopAgentParseLine(obj: Option<Json>, rawLine: string): (r: Option<LineUpdate>)
    ensures !IsObjectValue(obj) ==> r.None?
    ensures r.Some? ==> r.value.usage.None? && r.value.sessionId.None? && r.value.updateText.Some?
    ensures r.Some? && r.value.model.Some? ==>
              EventType(obj.value) == Some(JStr("model"))
              && r.value.model == Some(TextOf(Get(obj.value, "model")))
              && r.value.updateText == Some("model: " + Prefix(TextOf(Get(obj.value, "model")), 80))
    ensures IsObjectValue(obj) && EventType(obj.value) == Some(JStr("update")) && Truthy(Get(obj.value, "text"))
            ==> r.Some? && |r.value.updateText.value| <= 500
                && StartsWith(TextOf(Get(obj.value, "text")), r.value.updateText.value)
    ensures r.Some? && r.value.blockedReason.Some? ==>
              EventType(obj.value) == Some(JStr("blocked"))
              && r.value.blockedReason == Some(BlockedReason(obj.value))
              && r.value.updateText == Some("blocked: " + Prefix(BlockedReason(obj.value), 80))
              && (r.value.finalResult.Some? <==> Truthy(Get(obj.value, "summary")) || Truthy(Get(obj.value, "message")))
              && (Truthy(Get(obj.value, "summary")) ==> r.value.finalResult == Some(TextOf(Get(obj.value, "summary"))))
              && (!Truthy(Get(obj.value, "summary")) && Truthy(Get(obj.value, "message"))
                  ==> r.value.finalResult == Some(TextOf(Get(obj.value, "message"))))
    ensures IsObjectValue(obj) && EventType(obj.value) == Some(JStr("blocked")) ==> r.Some? && r.value.blockedReason.Some?
    ensures IsObjectValue(obj) && EventType(obj.value) == Some(JStr("final"))
            ==> r.Some? && r.value.updateText == Some("final")
                && (FinalText(obj.value).None? ==> r.value.assistantDelta.None? && r.value.finalResult.None?)
                && (FinalText(obj.value).Some? ==> r.value.finalResult == Some(TextOf(FinalText(obj.value)))
                                                   && r.value.assistantDelta == Some(TextOf(FinalText(obj.value)) + "\n"))
    ensures IsObjectValue(obj)
            && EventType(obj.value) !in {Some(JStr("model")), Some(JStr("update")), Some(JStr("blocked")), Some(JStr("final"))}
            ==> (r.Some? <==> 0 < |rawLine| < MaxRawLine) && (r.Some? ==> r.value.updateText == Some("event: " + rawLine))
  {
    if !IsObjectValue(obj) then None
    else
      var o := obj.value;
      var t := EventType(o);
      if t == Some(JStr("model")) && Truthy(Get(o, "model")) then
        var m := TextOf(Get(o, "model"));
        Some(LineUpdate(None, Some(m), Some("model: " + Prefix(m, 80)), None, None, None, None))
      else if t == Some(JStr("update")) && Truthy(Get(o, "text")) then
        Some(TextUpdate(Prefix(TextOf(Get(o, "text")), 500)))
      else if t == Some(JStr("blocked")) then
        var reason := BlockedReason(o);
        var fin := FirstTruthy([Get(o, "summary"), Get(o, "message")]);
        assert fin.None? <==> !Truthy(Get(o, "summary")) && !Truthy(Get(o, "message")) by {
          assert [Get(o, "summary"), Get(o, "message")][1] == Get(o, "message");
        }
        Some(LineUpdate(None, None, Some("blocked: " + Prefix(reason, 80)), None,
                        if fin.Some? then Some(TextOf(fin)) else None, Some(reason), None))
      else if t == Some(JStr("final")) then
        var text := FinalText(o);
        Some(LineUpdate(None, None, Some("final"),
                        if text.Some? then Some(TextOf(text) + "\n") else None,
                        if text.Some? then Some(TextOf(text)) else None, None, None))
      else if 0 < |rawLine| < MaxRawLine then Some(TextUpdate("event: " + rawLine))
      else None
  }
}
