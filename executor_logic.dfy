/** The decisions the run executor (src/services/executor.js) makes without
    touching the store: the execution brief shown when a run starts, the
    per-line accumulation of a run's output stream, the terminal status of a
    finished run and what it means for its task, the run's summary and token
    usage, and the grouping of the periodic progress reports. */
module ExecutorLogic {
  import opened Wrappers
  import opened Strings
  import opened TokenMeter
  import opened TextUtils
  import opened TimeUtils
  import opened RunnerCommon
  import opened TaskStore
  import Runners

  // ---------------------------------------------------------------- quota lines

  const QuotaPhrase: string := "You've hit your usage limit"
  const UsageLimit: string := "usage limit"

  /** `isQuotaLine`: the line mentions a usage limit. */
  predicate IsQuotaLine(line: string)
  {
    Contains(line, QuotaPhrase) || Contains(line, UsageLimit)
  }

  /** The longer phrase contains the shorter one, so a line is a quota line
      exactly when it contains "usage limit". */
  lemma QuotaLineIffUsageLimit(line: string)
    ensures IsQuotaLine(line) <==> Contains(line, UsageLimit)
  {
    ContainsIff(line, QuotaPhrase);
    ContainsIff(line, UsageLimit);
    assert OccursAt(QuotaPhrase, UsageLimit, 16);
    forall i ensures OccursAt(line, QuotaPhrase, i) ==> OccursAt(line, UsageLimit, i + 16) {
      if OccursAt(line, QuotaPhrase, i) {
        OccursWithin(line, QuotaPhrase, i, UsageLimit, 16);
      }
    }
  }

  // ---------------------------------------------------------------- execution brief

  const PromptMarker: string := "[PROMPT]"
  const BriefMaxChars: nat := 220

  /** Nothing after the last occurrence of a non-empty word contains it. */
  lemma NoneAfterLast(raw: string, m: string, i: int)
    requires m != [] && OccursAt(raw, m, i)
    requires forall j :: i < j ==> !OccursAt(raw, m, j)
    ensures !Contains(Trim(raw[i + |m|..]), m)
  {
    var tail := raw[i + |m|..];
    assert OccursAt(raw, tail, i + |m|);
    ContainsIff(tail, m);
    forall j ensures !OccursAt(tail, m, j) {
      OccursWithin(raw, tail, i + |m|, m, j);
    }
    TrimKeepsAbsent(tail, m);
  }

  /** The trimmed text after the last "[PROMPT]" marker, or the whole text
      when it has no marker. */
  function AfterLastMarker(raw: string): (r: string)
    ensures !Contains(raw, PromptMarker) ==> r == raw
    ensures Contains(raw, PromptMarker) ==> IsTrimmed(r) && !Contains(r, PromptMarker)
  {
    if Contains(raw, PromptMarker) then
      var i := LastIndexOf(raw, PromptMarker);
      ContainsIff(raw, PromptMarker);
      assert i >= 0;
      NoneAfterLast(raw, PromptMarker, i);
      Trim(raw[i + |PromptMarker|..])
    else raw
  }

  /** `x.replace(/\s+/g, ' ').trim()`. */
  function Normalize(x: string): (r: string)
    ensures IsTrimmed(r)
  {
    Trim(CollapseSpaces(x))
  }

  /** Normalised text uses only single ordinary spaces between words. */
  lemma NormalizedSpacing(x: string)
    ensures SingleSpaced(Normalize(x))
  {
    var c := CollapseSpaces(x);
    var r := Trim(c);
    var k :| OccursAt(c, r, k);
    SingleSpacedPiece(c, r, k);
  }

  /** Normalising never creates a word that was not there. */
  lemma NormalizeKeepsAbsent(x: string, p: string)
    requires p != [] && SpaceFree(p)
    ensures !Contains(x, p) ==> !Contains(Normalize(x), p)
  {
    TrimKeepsAbsent(CollapseSpaces(x), p);
    CollapseContains(x, p);
  }

  /** The prompt's part of the brief: what follows the last marker, normalised. */
  function PromptText(prompt: string): string
  {
    Normalize(AfterLastMarker(Trim(prompt)))
  }

  function TitleText(title: Option<string>): string
  {
    Normalize(title.GetOr(""))
  }

  /** `buildExecutionBrief`: the normalised prompt text, else the normalised
      title, cut to 220 characters; None when both are empty. */
  function BuildExecutionBrief(prompt: string, title: Option<string>): (r: Option<string>)
    ensures r.None? <==> PromptText(prompt) == "" && TitleText(title) == ""
    ensures PromptText(prompt) != "" ==> r == Some(Truncate(Some(PromptText(prompt)), BriefMaxChars))
    ensures PromptText(prompt) == "" && TitleText(title) != "" ==> r == Some(Truncate(Some(TitleText(title)), BriefMaxChars))
  {
    var text := PromptText(prompt);
    var text' := if text == "" then TitleText(title) else text;
    if text' == "" then None else Some(Truncate(Some(text'), BriefMaxChars))
  }

  /** The brief never shows a "[PROMPT]" marker from the prompt: everything up
      to the last marker is dropped. */
  lemma BriefTextHasNoMarker(prompt: string)
    ensures !Contains(PromptText(prompt), PromptMarker)
  {
    var raw := Trim(prompt);
    MarkerIsSpaceFree();
    NormalizeKeepsAbsent(AfterLastMarker(raw), PromptMarker);
  }

  lemma MarkerIsSpaceFree()
    ensures PromptMarker != [] && SpaceFree(PromptMarker)
  {
  }

  // ---------------------------------------------------------------- stream state

  const MaxAssistantBufferChars: nat := 120000
  const UpdateThrottleMs: int := 1000
  const StderrHintChars: nat := 120

  /** What the close handler of one started run remembers: the run and task it
      belongs to, and the state the output callbacks accumulate. */
  datatype Stream = Stream(
    runId: string,
    taskId: string,
    phone: string,
    projectId: string,
    runnerKind: string,
    runner: Runners.RunnerKind,
    prompt: string,
    artifactsDir: string,
    lastPath: Option<string>,
    model: Option<string>,
    sessionId: Option<string>,
    finalResult: Option<string>,
    assistantBuffer: string,
    usage: Option<Usage>,
    lastUpdate: string,
    lastUpdateAt: int,
    blockedReason: Option<string>,
    finalised: bool)

  /** The state right after `startRun` spawned the process. */
  function NewStream(run: Run, task: Task, runner: Runners.RunnerKind, lastPath: Option<string>): (s: Stream)
    ensures s.runId == run.runId && s.taskId == task.taskId && s.phone == task.phone
    ensures !s.finalised && s.blockedReason.None? && s.model.None? && s.sessionId.None?
    ensures s.assistantBuffer == "" && s.usage.None?
  {
    Stream(run.runId, task.taskId, task.phone, task.projectId, run.runnerKind, runner, run.prompt,
           run.artifactsDir, lastPath, None, None, None, "", None, "", 0, None, false)
  }

  /** A value that, once present, is never replaced. */
  function FirstWins(cur: Option<string>, next: Option<string>): (r: Option<string>)
    ensures Present(cur) ==> r == cur
    ensures !Present(cur) && Present(next) ==> r == next
    ensures !Present(next) ==> r == cur
  {
    if Present(next) && !Present(cur) then next else cur
  }

  /** The blocked reason after one stdout line: "quota" for a quota line, else
      the reason the runner's parser reported; an existing reason is kept. */
  function BlockedAfterLine(cur: Option<string>, line: string, parsed: Option<LineUpdate>): (r: Option<string>)
    ensures Present(cur) ==> r == cur
    ensures !Present(cur) && IsQuotaLine(line) ==> r == Some("quota")
    ensures !Present(cur) && !IsQuotaLine(line) && parsed.Some? ==> r == FirstWins(cur, parsed.value.blockedReason)
    ensures !Present(cur) && !IsQuotaLine(line) && parsed.None? ==> r == cur
  {
    var quota := if !Present(cur) && IsQuotaLine(line) then Some("quota") else cur;
    if parsed.Some? then FirstWins(quota, parsed.value.blockedReason) else quota
  }

  /** The assistant buffer after a delta: the last 120000 characters of the
      concatenation. */
  function AppendBounded(buf: string, delta: string): (r: string)
    ensures |r| == if |buf + delta| < MaxAssistantBufferChars then |buf + delta| else MaxAssistantBufferChars
    ensures r == (buf + delta)[|buf + delta| - |r|..]
  {
    LastChars(buf + delta, MaxAssistantBufferChars)
  }

  /** The run's usage after a line that reported one: the provider-normalised
      report merged into what was accumulated. */
  function UsageAfterLine(cur: Option<Usage>, reported: Option<Usage>): (r: Option<Usage>)
    ensures reported.None? ==> r == cur
    ensures cur.Some? ==> r.Some? && r.value.totalTokens >= cur.value.totalTokens
    ensures (cur.None? || cur.value.totalTokens > 0) ==> (r.None? || r.value.totalTokens > 0)
  {
    if reported.None? then cur
    else
      var n := NormalizeTokenUsage(UsageJson(reported.value), "provider");
      var m := MergeTokenUsage(cur, n);
      assert cur.Some? ==> m.Some? && m.value.totalTokens >= cur.value.totalTokens by {
        if cur.Some? { MergeKeepsMaximum(cur, n); }
      }
      m
  }

  /** The new stream state after one stdout line and the writes to the store it
      asks for: the model and session id (first write only), and the task's
      progress text (throttled). */
  datatype LineEffects = LineEffects(
    stream: Stream, modelWrite: Option<string>, sessionWrite: Option<string>, taskUpdate: Option<string>)

  /** A progress text is written when it changed or a second has passed. */
  predicate UpdateDue(s: Stream, text: string, now: int)
  {
    now - s.lastUpdateAt >= UpdateThrottleMs || text != s.lastUpdate
  }

  /** `onStdoutLine`, given the runner's parse of the line. */
  function StdoutStep(s: Stream, line: string, parsed: Option<LineUpdate>, now: int): (e: LineEffects)
    ensures e.stream.runId == s.runId && e.stream.taskId == s.taskId && e.stream.phone == s.phone
            && e.stream.runner == s.runner && e.stream.prompt == s.prompt && e.stream.finalised == s.finalised
    ensures e.stream.blockedReason == BlockedAfterLine(s.blockedReason, line, parsed)
    ensures parsed.None? ==> e == LineEffects(s.(blockedReason := e.stream.blockedReason), None, None, None)
    ensures parsed.Some? ==>
      e.stream.model == FirstWins(s.model, parsed.value.model)
      && e.stream.sessionId == FirstWins(s.sessionId, parsed.value.sessionId)
      && e.stream.finalResult == FirstWins(s.finalResult, parsed.value.finalResult)
      && e.stream.usage == UsageAfterLine(s.usage, parsed.value.usage)
    ensures e.modelWrite.Some? <==> parsed.Some? && Present(parsed.value.model) && !Present(s.model)
    ensures e.modelWrite.Some? ==> e.stream.model == e.modelWrite
    ensures e.sessionWrite.Some? <==> parsed.Some? && Present(parsed.value.sessionId) && !Present(s.sessionId)
    ensures e.sessionWrite.Some? ==> e.stream.sessionId == e.sessionWrite
    ensures parsed.Some? && Present(parsed.value.assistantDelta) ==>
      e.stream.assistantBuffer == AppendBounded(s.assistantBuffer, parsed.value.assistantDelta.value)
    ensures !(parsed.Some? && Present(parsed.value.assistantDelta)) ==> e.stream.assistantBuffer == s.assistantBuffer
    ensures e.taskUpdate.Some? <==>
      parsed.Some? && Present(parsed.value.updateText) && UpdateDue(s, parsed.value.updateText.value, now)
    ensures e.taskUpdate.Some? ==> e.stream.lastUpdate == e.taskUpdate.value && e.stream.lastUpdateAt == now
    ensures e.taskUpdate.None? ==> e.stream.lastUpdate == s.lastUpdate && e.stream.lastUpdateAt == s.lastUpdateAt
  {
    var blocked := BlockedAfterLine(s.blockedReason, line, parsed);
    if parsed.None? then LineEffects(s.(blockedReason := blocked), None, None, None)
    else ParsedStep(s.(blockedReason := blocked), parsed.value, now)
  }

  /** The part of `onStdoutLine` that applies a parsed line; the blocked
      reason is already settled in `s`. */
  function ParsedStep(s: Stream, u: LineUpdate, now: int): (e: LineEffects)
    ensures e.stream == s.(usage := e.stream.usage, model := e.stream.model, sessionId := e.stream.sessionId,
                           finalResult := e.stream.finalResult, assistantBuffer := e.stream.assistantBuffer,
                           lastUpdate := e.stream.lastUpdate, lastUpdateAt := e.stream.lastUpdateAt)
    ensures e.stream.model == FirstWins(s.model, u.model)
            && e.stream.sessionId == FirstWins(s.sessionId, u.sessionId)
            && e.stream.finalResult == FirstWins(s.finalResult, u.finalResult)
            && e.stream.usage == UsageAfterLine(s.usage, u.usage)
    ensures e.modelWrite.Some? <==> Present(u.model) && !Present(s.model)
    ensures e.modelWrite.Some? ==> e.stream.model == e.modelWrite
    ensures e.sessionWrite.Some? <==> Present(u.sessionId) && !Present(s.sessionId)
    ensures e.sessionWrite.Some? ==> e.stream.sessionId == e.sessionWrite
    ensures Present(u.assistantDelta) ==> e.stream.assistantBuffer == AppendBounded(s.assistantBuffer, u.assistantDelta.value)
    ensures !Present(u.assistantDelta) ==> e.stream.assistantBuffer == s.assistantBuffer
    ensures e.taskUpdate.Some? <==> Present(u.updateText) && UpdateDue(s, u.updateText.value, now)
    ensures e.taskUpdate.Some? ==> e.stream.lastUpdate == e.taskUpdate.value && e.stream.lastUpdateAt == now
    ensures e.taskUpdate.None? ==> e.stream.lastUpdate == s.lastUpdate && e.stream.lastUpdateAt == s.lastUpdateAt
  {
    var modelWrite := if Present(u.model) && !Present(s.model) then u.model else None;
    var sessionWrite := if Present(u.sessionId) && !Present(s.sessionId) then u.sessionId else None;
    var buffer := if Present(u.assistantDelta) then AppendBounded(s.assistantBuffer, u.assistantDelta.value)
                  else s.assistantBuffer;
    var taskUpdate := if Present(u.updateText) && UpdateDue(s, u.updateText.value, now) then u.updateText else None;
    var s' := s.(usage := UsageAfterLine(s.usage, u.usage),
                 model := FirstWins(s.model, u.model),
                 sessionId := FirstWins(s.sessionId, u.sessionId),
                 finalResult := FirstWins(s.finalResult, u.finalResult),
                 assistantBuffer := buffer,
                 lastUpdate := if taskUpdate.Some? then taskUpdate.value else s.lastUpdate,
                 lastUpdateAt := if taskUpdate.Some? then now else s.lastUpdateAt);
    LineEffects(s', modelWrite, sessionWrite, taskUpdate)
  }

  /** `onStderrLine`: the quota check, then a throttled "stderr: ..." hint. */
  function StderrStep(s: Stream, line: string, now: int): (e: LineEffects)
    ensures e.stream.blockedReason == BlockedAfterLine(s.blockedReason, line, None)
    ensures e.modelWrite.None? && e.sessionWrite.None?
    ensures e.taskUpdate.Some? <==> now - s.lastUpdateAt >= UpdateThrottleMs
    ensures e.taskUpdate.Some? ==> e.taskUpdate.value == "stderr: " + Prefix(line, StderrHintChars) && e.stream.lastUpdateAt == now
    ensures e.stream == s.(blockedReason := e.stream.blockedReason, lastUpdateAt := e.stream.lastUpdateAt)
  {
    var blocked := BlockedAfterLine(s.blockedReason, line, None);
    if now - s.lastUpdateAt < UpdateThrottleMs then LineEffects(s.(blockedReason := blocked), None, None, None)
    else LineEffects(s.(blockedReason := blocked, lastUpdateAt := now), None, None,
                     Some("stderr: " + Prefix(line, StderrHintChars)))
  }

  /** One output line as the callbacks see it. */
  datatype OutputLine = Stdout(text: string, parsed: Option<LineUpdate>, at: int) | Stderr(text: string, at: int)

  function LineStep(s: Stream, l: OutputLine): Stream
  {
    match l
    case Stdout(text, parsed, at) => StdoutStep(s, text, parsed, at).stream
    case Stderr(text, at) => StderrStep(s, text, at).stream
  }

  /** The stream state after a sequence of output lines. */
  function AfterLines(s: Stream, ls: seq<OutputLine>): Stream
    decreases |ls|
  {
    if ls == [] then s else AfterLines(LineStep(s, ls[0]), ls[1..])
  }

  /** Over any sequence of lines the blocked reason, model, session id and final
      result are written at most once, the buffer stays within its bound, and
      an accumulated usage always has a positive total. */
  predicate StreamInvariant(s: Stream)
  {
    |s.assistantBuffer| <= MaxAssistantBufferChars && (s.usage.None? || s.usage.value.totalTokens > 0)
  }

  /** `t` keeps every first write `s` already has, and the invariant when `s` has it. */
  predicate KeepsFirstWrites(s: Stream, t: Stream)
  {
    (Present(s.blockedReason) ==> t.blockedReason == s.blockedReason)
    && (Present(s.model) ==> t.model == s.model)
    && (Present(s.sessionId) ==> t.sessionId == s.sessionId)
    && (Present(s.finalResult) ==> t.finalResult == s.finalResult)
    && (StreamInvariant(s) ==> StreamInvariant(t))
    && t.runId == s.runId && t.finalised == s.finalised
  }

  lemma {:induction false} FirstWritesStick(s: Stream, ls: seq<OutputLine>)
    ensures KeepsFirstWrites(s, AfterLines(s, ls))
    decreases |ls|
  {
    if ls != [] {
      var s1 := LineStep(s, ls[0]);
      StepKeepsFirstWrites(s, ls[0]);
      FirstWritesStick(s1, ls[1..]);
    }
  }

  /** One line keeps the first writes. */
  lemma StepKeepsFirstWrites(s: Stream, l: OutputLine)
    ensures KeepsFirstWrites(s, LineStep(s, l))
  {
    match l
    case Stdout(text, parsed, at) =>
      var e := StdoutStep(s, text, parsed, at);
      assert Present(s.model) ==> e.stream.model == s.model;
    case Stderr(text, at) =>
  }

  // ---------------------------------------------------------------- finalisation

  /** The terminal status of a finished run, by priority: a kill signal, then a
      blocked reason, then the exit code. */
  function TerminalStatus(signal: Option<string>, blocked: Option<string>, exitCode: int): (st: Status)
    ensures st == Cancelled <==> signal == Some("SIGTERM") || signal == Some("SIGKILL")
    ensures st == Blocked <==> st != Cancelled && Present(blocked)
    ensures st == Done <==> st != Cancelled && !Present(blocked) && exitCode == 0
    ensures st == Error <==> st != Cancelled && !Present(blocked) && exitCode != 0
  {
    if signal == Some("SIGTERM") || signal == Some("SIGKILL") then Cancelled
    else if Present(blocked) then Blocked
    else if exitCode == 0 then Done
    else Error
  }

  const PurchaseConfirmation: string := "purchase_confirmation"

  /** The task status a finished run leaves behind. */
  function TaskStatusAfter(st: Status, blocked: Option<string>): (t: Status)
    ensures st == Done ==> t == Done
    ensures st == Cancelled ==> t == Cancelled
    ensures t == Waiting <==> st == Blocked && blocked == Some(PurchaseConfirmation)
    ensures st != Done && st != Cancelled && t != Waiting ==> t == Error
  {
    if st == Done then Done
    else if st == Cancelled then Cancelled
    else if st == Blocked && blocked == Some(PurchaseConfirmation) then Waiting
    else Error
  }

  /** The task's `last_error` after a run. */
  function LastErrorAfter(st: Status, exitCode: int, blocked: Option<string>): (e: Option<string>)
    ensures st == Error ==> e == Some("Exit " + IntToString(exitCode))
    ensures st != Error && Present(blocked) ==> e == Some("Blocked: " + blocked.value)
    ensures st != Error && !Present(blocked) ==> e.None?
  {
    if st == Error then Some("Exit " + IntToString(exitCode))
    else if Present(blocked) then Some("Blocked: " + blocked.value)
    else None
  }

  /** A finished run clears its task's error exactly when it is done, or was
      cancelled without a blocked reason. */
  lemma ClosedTaskError(signal: Option<string>, blocked: Option<string>, exitCode: int)
    ensures var st := TerminalStatus(signal, blocked, exitCode);
      LastErrorAfter(st, exitCode, blocked).None? <==> st == Done || (st == Cancelled && !Present(blocked))
    ensures var st := TerminalStatus(signal, blocked, exitCode);
      TaskStatusAfter(st, blocked) != Running && TaskStatusAfter(st, blocked) != Queued
  {
  }

  /** Only done, error and cancelled runs let the task's queued messages run. */
  predicate Drains(st: Status) { st == Done || st == Error || st == Cancelled }

  function RunClosePatch(st: Status, blocked: Option<string>, now: int, exitCode: int, summary: string): (p: RunPatch)
    ensures p.status == Some(st) && p.exitCode == Some(Some(exitCode)) && p.endedAt == Some(Some(now))
    ensures p.summaryText == Some(if summary == "" then None else Some(summary))
  {
    KeepRun.(status := Some(st), blockedReason := Some(blocked), endedAt := Some(Some(now)),
             exitCode := Some(Some(exitCode)), summaryText := Some(if summary == "" then None else Some(summary)))
  }

  function TaskClosePatch(st: Status, blocked: Option<string>, now: int, exitCode: int): (p: TaskPatch)
    ensures p.status == Some(TaskStatusAfter(st, blocked)) && p.endedAt == Some(Some(now))
    ensures p.lastUpdate == Some(Some(StatusName(st))) && p.lastError == Some(LastErrorAfter(st, exitCode, blocked))
  {
    KeepTask.(status := Some(TaskStatusAfter(st, blocked)), endedAt := Some(Some(now)),
              lastUpdate := Some(Some(StatusName(st))), lastError := Some(LastErrorAfter(st, exitCode, blocked)))
  }

  /** A run or task that failed outside the process: error, ended now. */
  function FailRunPatch(now: int, summary: string): (p: RunPatch)
    ensures p.status == Some(Error) && p.exitCode == Some(Some(-1)) && p.summaryText == Some(Some(summary))
  {
    KeepRun.(status := Some(Error), endedAt := Some(Some(now)), exitCode := Some(Some(-1)),
             summaryText := Some(Some(summary)))
  }

  /** `readSummaryForRun`: codex's last-message file, else the final result,
      else the assistant buffer, else the run's last.txt; a file that cannot be
      read gives "". Every answer is trimmed. */
  function ReadSummary(isCodex: bool, lastPath: Option<string>, finalResult: Option<string>, buffer: string,
                       lastFile: Option<string>, lastTxt: Option<string>): (r: string)
    ensures IsTrimmed(r)
    ensures isCodex && Present(lastPath) ==> r == Trim(lastFile.GetOr(""))
    ensures !(isCodex && Present(lastPath)) && Present(finalResult) ==> r == Trim(finalResult.value)
    ensures !(isCodex && Present(lastPath)) && !Present(finalResult) && buffer != "" ==> r == Trim(buffer)
  {
    var source := if isCodex && Present(lastPath) then lastFile.GetOr("")
                  else if Present(finalResult) then finalResult.value
                  else if buffer != "" then buffer
                  else lastTxt.GetOr("");
    Trim(source)
  }

  /** `normalizeTokenUsage(state.usage, 'provider')`. */
  function ProviderUsage(u: Option<Usage>): Option<Usage>
  {
    if u.None? then None else NormalizeTokenUsage(UsageJson(u.value), "provider")
  }

  /** An accumulated usage (positive total) is always taken as the provider's. */
  lemma ProviderUsageOfAccumulated(u: Option<Usage>)
    requires u.None? || u.value.totalTokens > 0
    ensures ProviderUsage(u).Some? <==> u.Some?
    ensures u.Some? ==> ProviderUsage(u) == Some(u.value.(source := Provider))
  {
    if u.Some? { RenormalizeUsage(u.value); }
  }

  /** The usage recorded for a finished run: the provider's, else an estimate
      from the prompt and the summary (or the buffer when the summary is empty). */
  function RunUsage(u: Option<Usage>, prompt: string, summary: string, buffer: string): (r: Usage)
    ensures ProviderUsage(u).Some? ==> r == ProviderUsage(u).value && r.source == Provider
    ensures ProviderUsage(u).None? ==>
      r == EstimateUsage(prompt, if summary != "" then summary else buffer)
      && r.source == Estimated && r.totalTokens == r.inputTokens + r.outputTokens
  {
    var p := ProviderUsage(u);
    if p.Some? then p.value else EstimateUsage(prompt, if summary != "" then summary else buffer)
  }

  /** A usage event row for a finished run; `estimated` marks the logged fallback. */
  datatype UsageEvent = UsageEvent(
    phone: string, taskId: string, runId: string, provider: string, model: Option<string>,
    usage: Usage, estimated: bool)

  // ---------------------------------------------------------------- notices and prompts

  /** The rows of a periodic report. */
  datatype ReportLine = ReportLine(
    position: nat, taskId: string, runnerKind: string, projectId: string, elapsed: string, update: string)

  /** The chat messages the executor sends, by their content. */
  datatype Notice =
    | AlreadyActive(taskId: string, running: bool)
    | UnsupportedRunner(runnerKind: string)
    | Enqueued(taskId: string, projectId: string, runnerKind: string)
    /** Its brief line, when there is one, is `BuildExecutionBrief(prompt, title)`. */
    | Starting(taskId: string, projectId: string, runnerKind: string, prompt: string, title: Option<string>)
    | StartFailed(projectId: string, taskId: string, runnerKind: string, message: string)
    | CancelledNotice(projectId: string, taskId: string)
    | ConfirmationNeeded(projectId: string, taskId: string)
    | BlockedNotice(projectId: string, taskId: string, runnerKind: string, model: Option<string>, reason: string)
    | DoneNotice(projectId: string, taskId: string, runnerKind: string, model: Option<string>, summary: string)
    | ErrorNotice(projectId: string, taskId: string, runnerKind: string, model: Option<string>,
                  exitCode: int, artifactsDir: string)
    | Resuming(taskId: string, itemId: string)
    | Report(count: nat, lines: seq<ReportLine>)

  datatype Outgoing = Outgoing(phone: string, notice: Notice)

  const StartFailedChars: nat := 500
  const DoneSummaryChars: nat := 3500

  /** The message a finished run sends, except the purchase confirmation. */
  function CloseNotice(st: Status, s: Stream, summary: string, exitCode: int): (n: Notice)
    requires st != Blocked || s.blockedReason != Some(PurchaseConfirmation)
    ensures st == Cancelled ==> n == CancelledNotice(s.projectId, s.taskId)
    ensures st == Blocked ==> n.BlockedNotice? && n.reason == (if Present(s.blockedReason) then s.blockedReason.value else "unknown")
    ensures st == Done ==> n.DoneNotice? && n.summary == Truncate(Some(if summary != "" then summary else "(sem resumo)"), DoneSummaryChars)
    ensures st != Cancelled && st != Blocked && st != Done ==> n == ErrorNotice(s.projectId, s.taskId, s.runnerKind, OrNull(s.model), exitCode, s.artifactsDir)
  {
    var model := OrNull(s.model);
    if st == Cancelled then CancelledNotice(s.projectId, s.taskId)
    else if st == Blocked then
      BlockedNotice(s.projectId, s.taskId, s.runnerKind, model,
                    if Present(s.blockedReason) then s.blockedReason.value else "unknown")
    else if st == Done then
      DoneNotice(s.projectId, s.taskId, s.runnerKind, model,
                 Truncate(Some(if summary != "" then summary else "(sem resumo)"), DoneSummaryChars))
    else ErrorNotice(s.projectId, s.taskId, s.runnerKind, model, exitCode, s.artifactsDir)
  }

  const ConfirmationTtlMs: int := 600000
  const MaxStoredSummaryChars: nat := 20000

  /** The prompt that resumes a run after the user confirms a purchase; the
      context is the JSON text of the runner's `purchase_context`. */
  function ResumePrompt(contextPretty: string): (p: string)
    ensures Contains(p, contextPretty)
  {
    ContainsMiddle(ResumeHead, contextPretty, ResumeTail);
    ResumeHead + contextPretty + ResumeTail
  }

  const ResumeHead: string :=
    "O usuario confirmou a compra. Continue de forma cuidadosa a partir do contexto abaixo.\n\nContexto (JSON):\n"
  const ResumeTail: string :=
    "\n\nInstrucoes:\n- Prossiga apenas com a etapa de compra/checkout que estava pendente.\n- Tire screenshot apos concluir.\n- Responda com o resultado e evidencias.\n"

  const MemoryHeader: string := "[MEMORIA COMPARTILHADA]\n"

  /** The prompt for a message queued behind a running task: the user's shared
      memory (when not blank) ahead of a "[PROMPT]" marker, then the message. */
  function QueuedPrompt(mem: string, content: string): (p: string)
    ensures IsBlank(mem) ==> p == Trim(content)
    ensures !IsBlank(mem) ==> StartsWith(p, MemoryHeader + Trim(mem)) && EndsWith(p, "\n" + PromptMarker + "\n" + Trim(content))
  {
    if IsBlank(mem) then Trim(content)
    else
      var head := MemoryHeader + Trim(mem);
      var tail := "\n" + PromptMarker + "\n" + Trim(content);
      AppendAssoc(head, "\n", tail);
      ConcatParts(head, "\n" + tail, "");
      ConcatParts(head + "\n", tail, "");
      head + "\n" + tail
  }

  /** An item of a task's execution queue; its content may be missing. */
  datatype ExecItem = ExecItem(id: string, content: Option<string>)

  /** `resolve(config.runsDir, taskId, runId)`. */
  function ArtifactsDir(runsDir: string, taskId: string, runId: string): (d: string)
    ensures StartsWith(d, runsDir + "/") && EndsWith(d, "/" + runId)
  {
    var d := runsDir + "/" + taskId + "/" + runId;
    assert d == (runsDir + "/") + (taskId + "/" + runId);
    assert d == (runsDir + "/" + taskId) + ("/" + runId);
    d
  }

  // ---------------------------------------------------------------- processes

  /** A live child process, by the run it executes. */
  datatype Proc = Proc(taskId: string, runId: string, phone: string, startedAt: int, runnerKind: string)

  datatype Signal = SigTerm | SigKill

  /** A signal sent to a run's process, `afterMs` milliseconds from now. */
  datatype KillRequest = KillRequest(runId: string, signal: Signal, afterMs: nat)

  const KillGraceMs: nat := 5000

  function FindProc(ps: seq<Proc>, runId: string): (r: Option<Proc>)
    ensures r.Some? ==> r.value in ps && r.value.runId == runId
    ensures r.None? <==> forall i :: 0 <= i < |ps| ==> ps[i].runId != runId
  {
    if ps == [] then None
    else if ps[0].runId == runId then Some(ps[0])
    else FindProc(ps[1..], runId)
  }

  /** `processes.delete(runId)`. */
  function RemoveProc(ps: seq<Proc>, runId: string): (r: seq<Proc>)
    ensures forall p :: p in r <==> p in ps && p.runId != runId
  {
    Filter(ps, (p: Proc) => p.runId != runId)
  }

  /** What `stop` sends: SIGTERM then SIGKILL to every process, in order. */
  function StopSignals(ps: seq<Proc>): (r: seq<KillRequest>)
    ensures |r| == 2 * |ps|
    ensures forall i :: 0 <= i < |ps| ==>
      r[2 * i] == KillRequest(ps[i].runId, SigTerm, 0) && r[2 * i + 1] == KillRequest(ps[i].runId, SigKill, 0)
    decreases |ps|
  {
    if ps == [] then []
    else
      var rest := StopSignals(ps[..|ps| - 1]);
      var last := ps[|ps| - 1];
      rest + [KillRequest(last.runId, SigTerm, 0), KillRequest(last.runId, SigKill, 0)]
  }

  /** The outcomes of `cancelTask`. */
  datatype CancelResult = NotFound | NoActiveRun | CancelledQueued | ProcessMissing | CancelledRunning

  // ---------------------------------------------------------------- periodic reports

  const ReportMaxTasks: nat := 5
  const ReportUpdateChars: nat := 160

  function ReportLineFor(position: nat, t: Task, now: int): (l: ReportLine)
    ensures l.position == position && l.taskId == t.taskId
    ensures l.update != "" && |l.update| <= ReportUpdateChars
  {
    var startedAt := t.startedAt.GetOr(now);
    var upd := Prefix(t.lastUpdate.GetOr(""), ReportUpdateChars);
    ReportLine(position, t.taskId, t.runnerKind, t.projectId,
               FormatElapsed((now - startedAt) as real / 1000.0), if upd == "" then "..." else upd)
  }

  /** One phone's report: the task count and the first five tasks, numbered from 1. */
  function ReportNotice(ts: seq<Task>, now: int): (n: Notice)
    ensures n.Report? && n.count == |ts|
    ensures |n.lines| == if |ts| < ReportMaxTasks then |ts| else ReportMaxTasks
    ensures forall i :: 0 <= i < |n.lines| ==> n.lines[i].position == i + 1 && n.lines[i].taskId == ts[i].taskId
  {
    var shown := FirstTasks(ts, ReportMaxTasks);
    Report(|ts|, seq(|shown|, i requires 0 <= i < |shown| => ReportLineFor(i + 1, shown[i], now)))
  }

  function FirstTasks(ts: seq<Task>, n: nat): (r: seq<Task>)
    ensures |r| == if |ts| < n then |ts| else n
    ensures r == ts[..|r|]
  {
    if |ts| < n then ts else ts[..n]
  }

  /** The phones of the tasks, each once, in order of first appearance. */
  function Phones(ts: seq<Task>): (r: seq<string>)
    ensures forall p :: p in r <==> exists t :: t in ts && t.phone == p
    ensures forall i, j :: 0 <= i < j < |r| ==> r[i] != r[j]
    decreases |ts|
  {
    if ts == [] then []
    else
      var rest := Phones(ts[..|ts| - 1]);
      var last := ts[|ts| - 1];
      assert forall t :: t in ts <==> t in ts[..|ts| - 1] || t == last;
      if last.phone in rest then rest else rest + [last.phone]
  }

  /** The tasks of one phone, in order. */
  function PhoneTasks(ts: seq<Task>, phone: string): (r: seq<Task>)
    ensures forall t :: t in r <==> t in ts && t.phone == phone
    decreases |ts|
  {
    if ts == [] then []
    else
      var rest := PhoneTasks(ts[..|ts| - 1], phone);
      var last := ts[|ts| - 1];
      assert forall t :: t in ts <==> t in ts[..|ts| - 1] || t == last;
      if last.phone == phone then rest + [last] else rest
  }

  /** A phone with no task has an empty group. */
  lemma {:induction false} PhoneTasksEmpty(ts: seq<Task>, p: string)
    ensures p !in Phones(ts) ==> PhoneTasks(ts, p) == []
    decreases |ts|
  {
    if ts != [] {
      PhoneTasksEmpty(ts[..|ts| - 1], p);
    }
  }

  /** `sendPeriodicReports`: one report per phone, in order of first appearance. */
  function Reports(ts: seq<Task>, now: int): (r: seq<Outgoing>)
    ensures |r| == |Phones(ts)|
    ensures forall i :: 0 <= i < |r| ==> r[i].phone == Phones(ts)[i]
  {
    var phones := Phones(ts);
    seq(|phones|, i requires 0 <= i < |phones| => Outgoing(phones[i], ReportNotice(PhoneTasks(ts, phones[i]), now)))
  }

  /** Every running task is reported to its own phone, in exactly one report. */
  lemma ReportsPartitionTasks(ts: seq<Task>, now: int)
    ensures forall t :: t in ts ==>
      exists i :: 0 <= i < |Reports(ts, now)| && Reports(ts, now)[i].phone == t.phone
                  && t in PhoneTasks(ts, Phones(ts)[i])
    ensures forall i, j :: 0 <= i < j < |Reports(ts, now)| ==> Reports(ts, now)[i].phone != Reports(ts, now)[j].phone
  {
    var r := Reports(ts, now);
    var phones := Phones(ts);
    forall t | t in ts
      ensures exists i :: 0 <= i < |r| && r[i].phone == t.phone && t in PhoneTasks(ts, phones[i])
    {
      assert t.phone in phones;
      var i :| 0 <= i < |phones| && phones[i] == t.phone;
      assert r[i].phone == t.phone;
    }
  }

  // ---------------------------------------------------------------- run counting

  /** One row update changes the number of running runs by at most one. */
  lemma {:induction false} RunningCountAfterUpdate(rs: seq<Run>, id: string, p: RunPatch)
    requires DistinctRunIds(rs)
    ensures RunningCount(UpdateRunRows(rs, id, p)) <= RunningCount(rs) + 1
    decreases |rs|
  {
    if rs != [] {
      var rs' := UpdateRunRows(rs, id, p);
      assert rs'[1..] == UpdateRunRows(rs[1..], id, p) by {
        assert forall i :: 0 <= i < |rs| - 1 ==> rs'[1..][i] == UpdateRunRows(rs[1..], id, p)[i];
      }
      assert Filter(rs', IsRunning) == (if IsRunning(rs'[0]) then [rs'[0]] else []) + Filter(rs'[1..], IsRunning);
      assert Filter(rs, IsRunning) == (if IsRunning(rs[0]) then [rs[0]] else []) + Filter(rs[1..], IsRunning);
      assert DistinctRunIds(rs[1..]) by {
        assert forall i :: 0 <= i < |rs| - 1 ==> rs[1..][i] == rs[i + 1];
      }
      if rs[0].runId == id {
        UpdateAbsentRun(rs[1..], id, p);
      } else {
        RunningCountAfterUpdate(rs[1..], id, p);
      }
    }
  }

  /** Rows keep their places and the columns no update touches: id, task,
      runner kind and prompt. */
  predicate SameRunKeys(a: seq<Run>, b: seq<Run>)
  {
    |a| == |b|
    && forall i :: 0 <= i < |a| ==>
         a[i].runId == b[i].runId && a[i].taskId == b[i].taskId
         && a[i].runnerKind == b[i].runnerKind && a[i].prompt == b[i].prompt
  }

  // ---------------------------------------------------------------- one active run per task

  predicate IsActive(r: Run) { r.status == Queued || r.status == Running }

  /** No task has two queued-or-running runs: what `enqueueTaskRun`'s guard
      keeps true. */
  predicate OneActivePerTask(rs: seq<Run>)
  {
    forall i, j :: 0 <= i < j < |rs| ==> !SameTaskActive(rs, i, j)
  }

  /** Rows `i` and `j` are both active runs of one task. */
  predicate SameTaskActive(rs: seq<Run>, i: nat, j: nat)
    requires i < |rs| && j < |rs|
  {
    IsActive(rs[i]) && IsActive(rs[j]) && rs[i].taskId == rs[j].taskId
  }

  /** An update that makes no row active which was not active before. */
  predicate ActivatesNothing(rs: seq<Run>, id: string, p: RunPatch)
  {
    p.status.None? || !(p.status.value == Queued || p.status.value == Running)
    || forall i :: 0 <= i < |rs| && rs[i].runId == id ==> IsActive(rs[i])
  }

  /** Under such an update a row keeps its task and is active only if it
      was. */
  lemma ActiveAfterPatch(rs: seq<Run>, id: string, p: RunPatch, i: nat)
    requires ActivatesNothing(rs, id, p) && i < |rs|
    ensures var r := UpdateRunRows(rs, id, p)[i];
      r.taskId == rs[i].taskId && (IsActive(r) ==> IsActive(rs[i]))
  {
  }

  /** Such an update keeps at most one active run per task. */
  lemma OneActiveAfterUpdate(rs: seq<Run>, id: string, p: RunPatch)
    requires OneActivePerTask(rs) && ActivatesNothing(rs, id, p)
    ensures OneActivePerTask(UpdateRunRows(rs, id, p))
  {
    var rs' := UpdateRunRows(rs, id, p);
    forall i, j | 0 <= i < j < |rs'| ensures !SameTaskActive(rs', i, j) {
      ActiveAfterPatch(rs, id, p, i);
      ActiveAfterPatch(rs, id, p, j);
      assert !SameTaskActive(rs, i, j);
    }
  }

  /** A new run may be active only when its task has no active run. */
  lemma OneActiveAfterAppend(rs: seq<Run>, r: Run)
    requires OneActivePerTask(rs)
    requires IsActive(r) ==> ActiveRun(rs, r.taskId).None?
    ensures OneActivePerTask(rs + [r])
  {
    var rs' := rs + [r];
    forall i, j | 0 <= i < j < |rs'| ensures !SameTaskActive(rs', i, j) {
      if j == |rs| {
        if IsActive(r) {
          assert !ActiveFor(rs[i], r.taskId);
        }
      } else {
        assert !SameTaskActive(rs, i, j);
      }
    }
  }

  /** Restart recovery leaves no running run, so it adds no active one. */
  lemma OneActiveAfterRecovery(rs: seq<Run>, now: int)
    requires OneActivePerTask(rs)
    ensures OneActivePerTask(RecoveredRuns(rs, now))
  {
    RecoveryStopsEveryRun(rs, now);
    var rs' := RecoveredRuns(rs, now);
    forall i, j | 0 <= i < j < |rs'| ensures !SameTaskActive(rs', i, j) {
      assert !SameTaskActive(rs, i, j);
    }
  }

  /** With one active run per task, the task's active run is that run: the
      one `cancelTask` and `enqueueTaskRun` look at is the only one. */
  lemma OnlyActiveRun(rs: seq<Run>, taskId: string, j: nat)
    requires OneActivePerTask(rs) && j < |rs| && ActiveFor(rs[j], taskId)
    ensures ActiveRun(rs, taskId) == Some(rs[j])
  {
    var k := ActiveRunIndex(rs, taskId);
    assert k >= j;
    if k > j {
      assert SameTaskActive(rs, j, k);
    }
  }

  /** Rows that were not queued are unchanged. */
  predicate KeepsSettledRuns(a: seq<Run>, b: seq<Run>)
  {
    |a| <= |b| && forall i :: 0 <= i < |a| && a[i].status != Queued ==> b[i] == a[i]
  }

  // ---------------------------------------------------------------- tick's frame

  /** Rows other than tasks and runs are unchanged. */
  predicate SideTablesKept(a: Tables, b: Tables)
  {
    b == a.(tasks := b.tasks, runs := b.runs)
  }

  /** `tick`'s progress from rows `a` and messages `out0`: `n` runs left the
      head of the queue (`AdmittedFrom`), only tasks and runs changed, and
      messages were only added. */
  predicate TickProgress(a: Tables, b: Tables, out0: seq<Outgoing>, out: seq<Outgoing>, n: nat, maxParallel: nat)
  {
    AdmittedFrom(a.runs, b.runs, n, maxParallel) && SideTablesKept(a, b) && out0 <= out
  }

  function Max(a: int, b: int): int { if a < b then b else a }

  /** `tick`'s progress: `n` runs have left the head of the queue, no more
      runs are running than before or than the limit allows, and rows that
      were not queued are untouched. */
  predicate AdmittedFrom(a: seq<Run>, b: seq<Run>, n: nat, maxParallel: nat)
  {
    n <= |QueuedRuns(a)| && QueuedRuns(b) == QueuedRuns(a)[n..]
    && RunningCount(b) <= Max(RunningCount(a), maxParallel)
    && SameRunKeys(a, b) && KeepsSettledRuns(a, b)
  }

  /** What taking the head of the queue does to the run rows: the queue
      loses its head, at most one more run is running, ids keep their places
      and rows that were not queued are untouched. */
  predicate LeftQueueHead(a: seq<Run>, b: seq<Run>)
  {
    QueuedRuns(a) != [] && QueuedRuns(b) == QueuedRuns(a)[1..]
    && RunningCount(b) <= RunningCount(a) + 1
    && SameRunKeys(a, b) && KeepsSettledRuns(a, b)
  }
}
