# morpheus in Dafny

A verified model of the core of morpheus, a WhatsApp and Discord bot that
turns chat messages into coding tasks. It keeps a per-user project and task
registry, asks a planner (gemini-cli or OpenRouter) what a message means, and
runs tasks through command-line coding agents (codex, claude, cursor, gemini,
or a desktop agent). The model covers:

- **The run executor** (`executor.dfy`, `executor_logic.dfy`) over **the task
  store** (`task_store.dfy`). It allows one queued-or-running run per task and
  starts the oldest queued runs up to the parallel limit. It accumulates each
  run's output stream and finalises a run exactly once, with its status, task
  status and token usage. Only done, failed and cancelled runs drain the
  task's execution queue. Cancelling has four outcomes, and a restart turns
  every running row into an error.
- **The planning pipeline**:
  - `orchestrator.dfy`: the greeting shortcut, the token budget, context
    compaction, provider order, the gemini-cli circuit breaker and the
    attempt loop;
  - `token_meter.dfy`: token counting and merging;
  - `plan_schema.dfy`: the 14-action plan validator;
  - `planner_json.dfy`: JSON-object extraction;
  - `planner_prompt.dfy`: prompt construction.
- **Inbound handling** (`inbound_core.dfy`, `inbound_admission.dfy`,
  `inbound_routing.dfy`): the parsers, the authorisation and de-duplication
  of inbound messages, and where a user's message is routed.
  Routing covers task selection, purchase confirmation and resuming, and
  queueing behind an active run.
- **The project registry** (`project_manager.dfy`, `paths.dfy`, `slugs.dfy`),
  settings (`settings.dfy`), and the runner adapters' command lines and
  output parsers (`runners.dfy` and one file per runner).
- **The chat adapters** (`whatsapp.dfy`, `discord.dfy`, `messenger.dfy`,
  `message_split.dfy`), media helpers (`media_utils.dfy`), text and time
  utilities, and the `.env` logic of the setup script (`init_projects.dfy`).

Conventions:
- A class stands for each object the source mutates in place:
  `TaskStore.TaskStore`, `Executor.Executor`,
  `Orchestrator.GeminiOrchestrator`, `ProjectManager.Manager`,
  `Settings.SettingsStore` and `Messenger.Messenger`. Pure code is functions
  and lemmas.
- The clock, random ids, subprocess events, file contents and provider
  replies are parameters.
- `JSON.parse` is a parameter `string -> Option<Json>`.
- Strings are sequences of Unicode code points.
- Literals the model states (commands, flags, headings, error messages,
  greetings and the reply texts a contract mentions) are copied from the
  source character for character. This includes the mis-encoded ones: where
  a source file holds UTF-8 bytes read back as Latin-1 (the third entry of
  the greeting list, the 📎 notice in `messenger.js`), the model holds
  those same characters and behaves as the source does with them. Where the
  source holds the real character (the 📎 in `discord.js`), so does the
  model.
- Row order in the task store stands for creation order: rows are appended
  when they are created, so `ORDER BY created_at` is table order (ties
  between equal timestamps are not modelled).
- `listTasksByPhone` (src/services/task-store.js:170-174) takes no project
  filter. The callers in src/services/inbound-core.js pass a project id, but
  it is ignored, and the model follows the code here.

## Model

| member | source | states |
|---|---|---|
| TextUtils.Truncate | src/utils/text.js:1-5 | a non-string gives ""; a text within the limit is returned whole; a longer one is cut to `maxLen` characters followed by the "(truncado)" marker |
| TextUtils.TruncateIsPrefix | src/utils/text.js:1-5 | the result never exceeds the limit plus the marker, is the text itself when within the limit, and always starts with the kept prefix |
| TextUtils.ParseCsvList | src/utils/text.js:7-12 | every item is non-empty, trimmed and comma-free; a missing value gives no items |
| TextUtils.CsvSingle | src/utils/text.js:7-12 | a comma-free text is exactly one item, its trimmed form, or none when blank |
| TextUtils.CsvAppend | src/utils/text.js:7-12 | parsing "a,b" gives the items of a followed by the items of b, so order is kept piece by piece |
| TextUtils.TrimmedNonEmptyAppend | src/utils/text.js:9-11 | the trim-and-drop step distributes over concatenation of the pieces |
| TextUtils.CsvRoundTrip | src/utils/text.js:7-12 | joining trimmed, comma-free, non-empty items with "," and parsing gives the same list back |
| TextUtils.CsvIdempotent | src/utils/text.js:7-12 | parsing the written form of a parsed list changes nothing |
| TextUtils.ParseBool | src/utils/text.js:14-21 | missing or "" gives the default; a boolean is itself; a trimmed, lower-cased true word gives true, a false word false, anything else the default |
| TextUtils.BoolWordsDisjoint | src/utils/text.js:18-19 | no word is both a true word and a false word |
| TimeUtils.FormatElapsed | src/utils/time.js:1-7 | the whole, non-negative seconds as "Ns" below a minute and "Mm Ss" from a minute on, with seconds below 60 |
| TimeUtils.FormatElapsedRoundTrip | src/utils/time.js:1-7 | reading minutes and seconds back from the formatted text gives the whole non-negative number of seconds |
| TimeUtils.FormatDurationMs | src/utils/time.js:9-14 | a missing value gives "?"; below a second "Nms"; otherwise the elapsed format of the whole seconds |
| TimeUtils.FloorOfDivision | src/utils/time.js:13 | flooring the real division by 1000 is integer division |
| PlannerJson.FenceInner | src/planner/json.js:6-8 | a fence is found exactly when the text holds a closed ``` pair; its inner text is trimmed and holds no ``` mark |
| PlannerJson.SearchText | src/planner/json.js:6-8 | the fence's inner text when a fence with non-empty inner text is present; the whole text when there is no fence or the fence is empty |
| PlannerJson.Candidate | src/planner/json.js:10-17 | present exactly when a '{' comes before a later '}'; it starts with '{', ends with '}', occurs in the text and starts at or before every '{' |
| PlannerJson.CandidateSpansBraces | src/planner/json.js:10-17 | the candidate occurs in the text from the first '{' through the last '}', so nested and adjacent objects are kept whole |
| PlannerJson.ParseFirstJsonObject | src/planner/json.js:1-18 | the three error messages for a non-string, a blank reply and a reply without a brace pair; a success is the parse of the candidate slice, and a candidate slice that parses always gives that success (one that does not is "not valid JSON") |
| PlanSchema.ParseAction | src/planner/schema.js:5-24 | a recognised action name gives the action whose name is that text |
| PlanSchema.ActionNameRoundTrip | src/planner/schema.js:5-24 | every action's name parses back to that action |
| PlanSchema.ParseProvider | src/planner/schema.js:4 | exactly "gemini-cli", "openrouter" and "auto" are providers, and each parses to the provider of that name |
| PlanSchema.ParseScope | src/planner/schema.js:42 | exactly "task", "user" and "global" are scopes |
| PlanSchema.OptPositive | src/planner/schema.js:48-49 | a present, accepted value is a positive integer |
| PlanSchema.OptRunnerKind | src/planner/schema.js:3 | a present runner kind is non-empty and already trimmed |
| PlanSchema.ParsePlan | src/planner/schema.js:26-69 | a parsed plan comes from an object whose "action" is the plan's action name; version defaults to 1; runner kind non-empty; the policy numbers positive; a missing or non-string action is refused |
| PlanSchema.MissingField | src/planner/schema.js:74-109 | no field is reported exactly when the plan has the fields its action requires |
| PlanSchema.ValidatePlan | src/planner/schema.js:71-112 | succeeds exactly when the schema parse succeeds and the action's required fields are present, and then returns the parsed plan |
| PlanSchema.ValidRunPlans | src/planner/schema.js:78-85 | a valid run plan has a non-blank prompt, a set_runner plan a runner kind, a set_orchestrator plan a provider |
| PlannerPrompt.ContextLinesComplete | src/planner/prompt.js:51-63 | every context message with non-blank content contributes its "[role] content" line |
| PlannerPrompt.ContextLinesSound | src/planner/prompt.js:51-63 | every context line comes from a message with non-blank content |
| PlannerPrompt.ContextLinesSnoc | src/planner/prompt.js:55-60 | the lines of a list with one more message are the earlier lines plus that message's line unless it is blank |
| PlannerPrompt.ContextPlaceholderIff | src/planner/prompt.js:51-63 | the "(sem contexto anterior)" placeholder is produced exactly when there is no list or every message is blank |
| PlannerPrompt.FormatContext | src/planner/prompt.js:51-63 | the loop computes the context text |
| PlannerPrompt.CollectContextLines | src/planner/prompt.js:54-60 | the loop collects exactly the context lines, in order |
| PlannerPrompt.ProjectLinesMembers | src/planner/prompt.js:69-74 | every project with an id gets its "- id" line and every line comes from a project with an id |
| PlannerPrompt.MoreProjectsNote | src/planner/prompt.js:75 | the "(+N outros)" note appears exactly when there are more than 25 projects |
| PlannerPrompt.ProjectsListedAtMost25 | src/planner/prompt.js:67-74 | at most 25 project lines, each from one of the first 25 projects |
| PlannerPrompt.FormatProjects | src/planner/prompt.js:65-77 | the loop computes the projects text |
| PlannerPrompt.MemoryText | src/planner/prompt.js:125 | a missing or blank memory gives "(vazia)", otherwise the trimmed memory, never empty |
| PlannerPrompt.UserMessageStart | src/planner/prompt.js:120-123 | the user message starts with the task id and project id lines and an empty line |
| PlannerPrompt.UserMessageEnd | src/planner/prompt.js:133-135 | the user message ends with the heading and the user's text |
| PlannerPrompt.UserMessageMemory | src/planner/prompt.js:124-126 | the user message holds the memory heading followed by the memory text and an empty line |
| PlannerPrompt.UserMessageProjects | src/planner/prompt.js:127-129 | the user message holds the projects heading followed by the projects text and an empty line |
| PlannerPrompt.UserMessageContext | src/planner/prompt.js:130-132 | the user message holds the context heading followed by the context text and an empty line |
| PlannerPrompt.BuildPlannerMessages | src/planner/prompt.js:79-138 | the system message starts with the instructions and schema and ends with the preferred-runner line; the user message starts with the ids, holds the memory, the projects text FormatProjects computes and the context text FormatContext computes each under its heading, and ends with the user's text |
| RunnerCommon.TextUpdate | src/runners/codex-cli.js:22-57 | an update that carries only its progress text |
| RunnerCommon.Redact | src/runners/claude-cli.js:18 | the recorded arguments keep their number; an argument is `<prompt>` exactly when it was the prompt (or already the placeholder) and every other one is kept |
| RunnerCommon.RedactHidesPrompt | src/runners/claude-cli.js:18-19 | the prompt never appears in the recorded command line |
| RunnerCommon.TextPartsMembers | src/runners/claude-cli.js:24-31 | every text block contributes its text and every part comes from a text block |
| RunnerCommon.ExtractTextFromContentBlocks | src/runners/claude-cli.js:24-31 | the loop computes the joined text of the content blocks |
| RunnerCommon.AssistantUpdate | src/runners/claude-cli.js:85-91 | the delta is the text plus a newline; the progress text is "assistant: " and the first 160 characters of the text; the usage is the line's and there is no final result, block, session or model |
| RunnerCommon.ResultLabel | src/runners/claude-cli.js:95-98 | "result:done" when the subtype is falsy, "result:" and the subtype when it is a non-empty string |
| RunnerCommon.ResultText | src/runners/claude-cli.js:96-99 | present exactly when `result` is a string that is not blank, and then it is that string trimmed |
| RunnerCommon.ResultUpdate | src/runners/claude-cli.js:94-102 | the final result is the trimmed result string, null exactly when there is no string or it is blank; the progress text is "result:" and the subtype, or "result:done" when the subtype is falsy; the usage is the line's, and nothing else is set |
| RunnerCommon.LastSegment | src/runners/claude-cli.js:46-48 | the basename: a '/'-free end of the path that follows a '/' whenever the path holds one |
| Runners.GetRunner | src/runners/index.js:7-42 | a runner is found exactly for the five supported kinds, and it carries the kind asked for |
| Runners.GetRunnerRoundTrip | src/runners/index.js:7-42 | every runner kind's name looks up that runner; "auto" is not a runner |
| Runners.SupportCheckNotExported | src/services/orchestrator.js:8 | the registry exports `getRunner` but neither of the two support helpers the orchestrator and the inbound core import from it |
| Runners.ListSupportedRunnerKinds | src/services/inbound-core.js:25-28 | each supported name once: the registered kinds, and "auto" exactly when it is asked for |
| Runners.SupportedWithAuto | src/services/inbound-core.js:527 | without `includeAuto` the support check is the registry lookup; with it, "auto" is accepted too and nothing else is added |
| Runners.Build | src/runners/index.js:7-42 | each kind's command is the one its own adapter builds |
| Runners.ParseLine | src/runners/index.js:7-42 | each kind parses output lines with its own adapter |
| Runners.NonObjectLines | src/runners/index.js:7-42 | a line that is not a JSON object yields nothing, except the quota marker for the cursor runner |
| CodexCli.BuildCodexRun | src/runners/codex-cli.js:3-20 | "exec", the optional flags as configured, then "--json", the output-file flag into the artifacts directory and the prompt last |
| CodexCli.CodexParseLine | src/runners/codex-cli.js:22-57 | non-objects yield nothing; every update has a progress text and no usage or block; "thread.started" with a thread id gives that session id and "thread.started", and only it gives a session id; a command item gives "Bash: " and the first 120 characters of the command, with " (exit N)" on a completed item with a numeric exit code; a non-blank agent message gives "assistant: " and its first 160 characters with the trimmed text and a newline as the delta, a blank one nothing, and only such a message gives a delta; another item type gives "<event>: <type>", or nothing without a type; "turn.completed" gives "turn.completed"; every other event gives nothing |
| RunnerCommon.OutputFormat | src/runners/claude-cli.js:8 | the output format is never empty and is the configured one whenever one is set; the Claude, Cursor and Gemini adapters share it |
| ClaudeCli.ClaudeArgs | src/runners/claude-cli.js:3-22 | "-p", "--verbose" exactly when asked or streaming JSON, the output format, the optional permission mode and model, and the prompt |
| ClaudeCli.BuildClaudeRun | src/runners/claude-cli.js:3-22 | the configured command, the arguments with the prompt last, and the redacted copy |
| ClaudeCli.ToolSummary | src/runners/claude-cli.js:33-61 | a summary exactly for tool-use blocks: "Bash: " and at most 120 characters of the command, the file's last segment for Read/Edit/Write |
| ClaudeCli.Summaries | src/runners/claude-cli.js:33-63 | no summaries exactly when no block is a tool use |
| ClaudeCli.ToolUseSummary | src/runners/claude-cli.js:33-65 | no summary exactly when the blocks are not a list or hold no tool use |
| ClaudeCli.SummarizeToolUseBlocks | src/runners/claude-cli.js:33-65 | the loop computes the summary |
| ClaudeCli.ClaudeParseLine | src/runners/claude-cli.js:67-105 | non-objects yield nothing; every update carries the line's normalised usage and no block; "system"/"init" gives "init" with model and session; an assistant event gives its tool summary, else its trimmed text as the delta, else nothing; a result event gives ResultUpdate's update (the trimmed result or null, "result:" and the subtype or "done"); any other event, a non-init "system" included, gives a usage-only update exactly when the line has usage, and nothing otherwise |
| CursorCli.BuildCursorRun | src/runners/cursor-cli.js:3-17 | "-p", the output format, "-f" exactly when forced, the optional model, the workspace and the prompt |
| CursorCli.SummarizeToolCall | src/runners/cursor-cli.js:28-45 | non-objects give nothing; a read call gives "Read: " and the last path segment |
| CursorCli.CursorParseLine | src/runners/cursor-cli.js:47-91 | a raw line holding the quota marker is blocked with reason "quota", and only such a line is blocked; otherwise non-objects yield nothing and updates carry the line's usage; "system"/"init" gives "init" with model and session; a tool call gives its summary or nothing; an assistant event gives its trimmed text as the delta, or nothing when blank; a result event gives ResultUpdate's update; any other event gives a usage-only update exactly when the line has usage, and nothing otherwise |
| GeminiCli.BuildGeminiRun | src/runners/gemini-cli.js:1-16 | "--prompt", the prompt, "--output-format" and the configured or default "stream-json", then the optional approval mode and model |
| GeminiCli.ToolName | src/runners/gemini-cli.js:30 | the tool name when it is a non-empty string, "tool" when it is falsy |
| GeminiCli.FileBase | src/runners/gemini-cli.js:31 | empty without a file path; otherwise a '/'-free end of the path that follows its last '/' |
| GeminiCli.ToolLine | src/runners/gemini-cli.js:29-32 | "tool:" and the tool name, followed by a space and the file's basename when there is one |
| GeminiCli.GeminiParseLine | src/runners/gemini-cli.js:18-50 | non-objects yield nothing; updates carry a progress text and no usage, block or final result; "init" gives "init" with model and session; "tool_use" gives the tool line; an assistant message with string content gives "assistant: " and its first 160 trimmed characters, with the raw content as the delta when `delta` is set and the trimmed text and a newline otherwise, or nothing when blank, and only such a message gives a delta; "result" gives "result:" and the status or "done"; every other event gives nothing |
| DesktopAgent.RedactAfterPromptFlag | src/runners/desktop-agent.js:6 | the argument after each "--prompt" becomes `<prompt>`, the others are kept |
| DesktopAgent.BuildDesktopAgentRun | src/runners/desktop-agent.js:3-9 | the node binary runs the script with the prompt, workspace and artifacts flags; the recorded copy hides the prompt |
| DesktopAgent.DesktopAgentParseLine | src/runners/desktop-agent.js:11-39 | non-objects yield nothing; updates carry a progress text and no usage or session; a model only from a "model" event; a blocked event gives the reason (reason, else blockedReason, else "blocked") and a final result that is the summary, else the message, else nothing; a "final" event gives the text, final_text or summary as the final result and, with a newline, the delta; an unknown event gives "event: " and the raw line exactly when the line is non-empty and under 200 characters |
| DesktopAgentUtils.DetectPurchaseIntent | src/runners/desktop-agent-utils.js:1-9 | true exactly when the lower-cased text contains one of the purchase keywords |
| DesktopAgentUtils.PurchaseIntentWitness | src/runners/desktop-agent-utils.js:8 | any occurrence of a keyword is enough |
| DesktopAgentUtils.BuyingInPortuguese | src/runners/desktop-agent-utils.test.js:5-9 | "vamos comprar agora" is a purchase intent |
| DesktopAgentUtils.CheckoutInEnglish | src/runners/desktop-agent-utils.test.js:11-15 | "go to checkout and pay" is a purchase intent |
| DesktopAgentUtils.BalancedEnd | src/runners/desktop-agent-utils.js:17-25 | the first position from which the brace depth since the opening '{' returns to zero, or -1 when it never does |
| DesktopAgentUtils.BalancedEndUnique | src/runners/desktop-agent-utils.js:17-25 | the balanced end found is exactly the minimal balanced slice from that '{' |
| DesktopAgentUtils.MatchingBrace | src/runners/desktop-agent-utils.js:17-25 | the inner loop finds the balanced end |
| DesktopAgentUtils.FirstJsonObject | src/runners/desktop-agent-utils.js:11-28 | nothing when the text has no '{' |
| DesktopAgentUtils.ParseFirstJsonObject | src/runners/desktop-agent-utils.js:11-28 | the nested loops compute the first parseable minimal balanced slice |
| DesktopAgentUtils.FirstJsonObjectSound | src/runners/desktop-agent-utils.js:11-28 | a result is the parse of some minimal balanced slice from a '{' to a '}' |
| DesktopAgentUtils.FirstJsonObjectLeftmost | src/runners/desktop-agent-utils.js:15-26 | the leftmost parseable balanced slice wins |
| DesktopAgentUtils.FirstJsonObjectNone | src/runners/desktop-agent-utils.js:11-28 | nothing is found exactly when no minimal balanced slice parses |
| DesktopAgentUtils.NestedObjectExample | src/runners/desktop-agent-utils.test.js:17-20 | a nested object inside surrounding prose is found whole |
| DesktopAgentRun.ParseArgs | src/runners/desktop-agent-run.js:19-29 | the loop computes the recursive reading of the flags |
| DesktopAgentRun.ArgsDefaults | src/runners/desktop-agent-run.js:19-29 | each field is its default or the word following one of its flags from the third argument on |
| DesktopAgentRun.ArgsFromProvenance | src/runners/desktop-agent-run.js:21-27 | the same, from any starting position and starting values |
| DesktopAgentRun.ArgsExamples | src/runners/desktop-agent-run.js:19-29 | a later flag wins; a flag consumes the next word even when it is a flag; unknown words are skipped; an empty working directory falls back to the process's |
| DesktopAgentRun.RowBoxFields | src/runners/desktop-agent-run.js:84-95 | a row gives a box exactly when it has 12 columns, a non-blank trimmed text and four integer coordinates, and the box holds those values |
| DesktopAgentRun.BoxesOfMembers | src/runners/desktop-agent-run.js:83-96 | the boxes are exactly those of the rows that give one |
| DesktopAgentRun.TsvBoxes | src/runners/desktop-agent-run.js:80-98 | no boxes when the text has at most one non-empty line; every box text is trimmed and non-empty |
| DesktopAgentRun.TsvBoxesFromDataRows | src/runners/desktop-agent-run.js:80-98 | the boxes come exactly from the lines after the header |
| DesktopAgentRun.ParseTesseractTsv | src/runners/desktop-agent-run.js:80-98 | the loop computes the boxes |
| DesktopAgentRun.FirstExact | src/runners/desktop-agent-run.js:105 | the first box whose lower-cased text equals the query, or none when no box's does |
| DesktopAgentRun.FirstContaining | src/runners/desktop-agent-run.js:108 | the first box whose lower-cased text contains the query, or none when no box's does |
| DesktopAgentRun.FindOcrHit | src/runners/desktop-agent-run.js:100-110 | a blank query finds nothing; an exact match is preferred to a substring match; a hit is a box containing the trimmed, lower-cased query |
| DesktopAgentRun.FindOcrHitNone | src/runners/desktop-agent-run.js:100-110 | nothing is found exactly when the query is blank or no box contains it |
| DesktopAgentRun.FirstToken | src/runners/desktop-agent-run.js:188 | the first word is a prefix of the command and holds no white space |
| DesktopAgentRun.DenyListItems | src/runners/desktop-agent-run.js:185 | the deny list is exactly "rm -rf", "sudo", "shutdown" and "reboot" |
| DesktopAgentRun.SafeShellAllowed | src/runners/desktop-agent-run.js:182-190 | allowed exactly when the trimmed command is non-blank, holds no denied fragment and starts with an allowed program |
| DesktopAgentRun.HasDeniedFragment | src/runners/desktop-agent-run.js:185 | true exactly when some denied fragment occurs |
| DesktopAgentRun.SafeShellIgnoresLeadingSpace | src/runners/desktop-agent-run.js:183 | a leading space does not change the verdict |
| DesktopAgentRun.Truncate | src/runners/desktop-agent-run.js:176-180 | a short text is kept; a longer one is its first n characters followed by "..." |
| TokenMeter.ToInt | src/services/token-meter.js:3-7 | a non-finite or negative value counts 0; otherwise the floor of the value |
| TokenMeter.CharsToTokens | src/services/token-meter.js:9-12 | no tokens for no characters; otherwise the least whole number of 4-character tokens that covers the count |
| TokenMeter.EstimateTokensFromText | src/services/token-meter.js:23-25 | zero exactly for the empty text, and within one token of a quarter of its length |
| TokenMeter.Pick | src/services/token-meter.js:14-21 | a field of an outer value that is not an object is absent |
| TokenMeter.NormalizeTokenUsage | src/services/token-meter.js:27-69 | a usage exactly for an object with a positive input, output or total count; its total is positive, its input and output are the counts found, and a positive total is kept |
| TokenMeter.UsageJsonFields | src/services/token-meter.js:27-69 | a usage written as JSON exposes its three counts under their field names |
| TokenMeter.RenormalizeUsage | src/services/token-meter.js:27-69 | normalising a usage's JSON form gives it back, marked as reported by the provider |
| TokenMeter.MergeTokenUsage | src/services/token-meter.js:71-84 | a missing side yields the other; with both, the counts of the one with the larger total are kept |
| TokenMeter.MergeKeepsMaximum | src/services/token-meter.js:71-84 | the merged total is at least each side's, and a provider-reported side keeps the provider mark |
| TokenMeter.EstimateUsage | src/services/token-meter.js:86-95 | input and output are the text estimates, the total is their sum, and the source is "estimated" |
| TokenMeter.CompactMessageContent | src/services/token-meter.js:97-101 | the trimmed content when within the cap, else its first `maxChars` characters followed by "..." |
| TokenMeter.AtLeastOr | src/services/token-meter.js:110-112 | a setting falls back to its default when zero and is raised to the floor |
| TokenMeter.PerMessageCharCap | src/services/token-meter.js:114 | the per-message cap is at least 220 characters |
| TokenMeter.CompactAll | src/services/token-meter.js:120-123 | one message per kept message, role defaulting to "user", content compacted to the cap |
| TokenMeter.Snippets | src/services/token-meter.js:126-129 | each snippet of a dropped message is non-empty and at most 123 characters |
| TokenMeter.SummarySnippets | src/services/token-meter.js:126-130 | the last eight snippets, or all when fewer |
| TokenMeter.SummarySnippetsBounded | src/services/token-meter.js:126-130 | at most eight snippets, each non-empty and at most 123 characters |
| TokenMeter.CompactContext | src/services/token-meter.js:116-135 | the newest messages up to the limit, compacted, preceded by one "system" summary exactly when some were dropped |
| TokenMeter.CompactMemory | src/services/token-meter.js:137-138 | the trimmed memory when within the cap, else its prefix of cap characters followed by "..." |
| TokenMeter.CompactPlannerPayload | src/services/token-meter.js:103-152 | the counts in the metadata (dropped, original, final), the caps, and whether the memory was trimmed |
| TokenMeter.CompactionKeepsNewest | src/services/token-meter.js:110-135 | at least two messages are kept (or all of them), and the final count is the kept ones plus the summary |
| TokenMeter.FormatTokenSummaryLine | src/services/token-meter.js:154-157 | the label, then the input, output and total counts separated by vertical bars, with zeros for a missing usage |
| TaskStore.OrNull | src/services/task-store.js:61-65 | an empty or missing value is stored as NULL, any other value as itself |
| TaskStore.TouchedUser | src/services/task-store.js:13-24 | the user's update time is now; a new user has no project, overrides or focus and is created now; an existing user keeps its other fields |
| TaskStore.AppendedMemory | src/services/task-store.js:47-55 | the new memory ends with "- " and the text; an empty memory becomes just that item; otherwise the old memory and a blank line come first |
| TaskStore.AppendedMemoryIsTrimmed | src/services/task-store.js:47-55 | appending a trimmed item to a trimmed memory gives a trimmed memory, so the store's own trim leaves it alone |
| TaskStore.StoredMemory | src/services/task-store.js:34-45 | the row holds the content and the update time; the creation time is kept on conflict and is now otherwise |
| TaskStore.StoreKeepsTrimmed | src/services/task-store.js:34-45 | storing a trimmed text keeps every stored memory trimmed |
| TaskStore.WithAppendedMemory | src/services/task-store.js:47-55 | an empty text changes nothing; otherwise the user's memory is the appended form and no other table but users and memory changes |
| TaskStore.AppendThenStore | src/services/task-store.js:47-55 | appending is exactly storing the appended form with the user touched |
| TaskStore.DedupKey | src/services/task-store.js:130 | the key is the instance id, ':' and the message id |
| TaskStore.NewestKept | src/services/task-store.js:219-227 | taking the newest n messages in reverse order and reversing back gives the last n in their original order |
| TaskStore.PatchTask | src/services/task-store.js:190-210 | only the allowed fields in the patch change; id, phone and creation time are kept; an empty patch changes nothing |
| TaskStore.UpdateTaskRows | src/services/task-store.js:190-210 | the row with the id is patched and every other row is kept, in place |
| TaskStore.KeepTaskChangesNothing | src/services/task-store.js:200-201 | an update without allowed fields leaves the rows as they were |
| TaskStore.FindTask | src/services/task-store.js:166-168 | a found task is in the table with that id; none is found exactly when no row has the id |
| TaskStore.NewTask | src/services/task-store.js:152-164 | the new row is "waiting" with last update "Waiting", no start, end or error, created now, with the given fields and an empty title as NULL |
| TaskStore.KeptPositions | src/services/task-store.js:170-182 | the positions of the rows a filter keeps are increasing, hold those rows in order and miss no accepted row: a filter lists exactly the accepted rows in table order |
| TaskStore.TasksByPhone | src/services/task-store.js:170-174 | at most `limit` tasks, all the user's own |
| TaskStore.TasksByPhoneNewestFirst | src/services/task-store.js:170-174 | as many of the user's tasks as the limit allows, the newest ones, newest first |
| TaskStore.ActiveTasksByPhone | src/services/task-store.js:176-182 | exactly the user's queued, running and waiting tasks |
| TaskStore.ActiveTasksNewestFirst | src/services/task-store.js:176-182 | the user's active tasks, newest first, so the first one is the newest |
| TaskStore.InsertByStart | src/services/task-store.js:184-188 | inserting into a list sorted by start time keeps it sorted and adds exactly that task |
| TaskStore.SortByStart | src/services/task-store.js:184-188 | the result is sorted by start time and is a permutation of the input |
| TaskStore.RunningTasks | src/services/task-store.js:184-188 | exactly the running tasks, sorted by start time |
| TaskStore.MessagesOf | src/services/task-store.js:219-227 | exactly the task's messages |
| TaskStore.LastMessages | src/services/task-store.js:219-227 | the last `limit` messages of the task, oldest first |
| TaskStore.PatchRun | src/services/task-store.js:273-291 | only the allowed run fields in the patch change; id, task, runner, prompt, creation time and artifacts directory are kept |
| TaskStore.UpdateRunRows | src/services/task-store.js:273-291 | the run with the id is patched and every other row is kept, in place |
| TaskStore.KeepRunChangesNothing | src/services/task-store.js:283-284 | an update without allowed fields leaves the rows as they were |
| TaskStore.FindRun | src/services/task-store.js:254-256 | a found run is in the table with that id; none is found exactly when no row has the id |
| TaskStore.NewRun | src/services/task-store.js:243-252 | the new row has the given id, task, status and creation time and no block reason, start, end, exit code or summary |
| TaskStore.ActiveRunIndex | src/services/task-store.js:229-236 | the last queued or running run of the task, or -1 when there is none |
| TaskStore.ActiveRun | src/services/task-store.js:229-236 | none exactly when the task has no queued or running run; otherwise one of them |
| TaskStore.QueuedRuns | src/services/task-store.js:258-265 | exactly the queued runs |
| TaskStore.QueuedRunsOldestFirst | src/services/task-store.js:258-265 | the queued runs in table order, which is creation order: oldest first |
| TaskStore.RunningCount | src/services/task-store.js:267-271 | zero exactly when no run is running |
| TaskStore.LeavingQueueHead | src/services/task-store.js:258-265 | moving the oldest queued run out of the queued state removes exactly it from the queue |
| TaskStore.RecoverRun | src/services/task-store.js:293-306 | a running run becomes "error" with end time now, exit code -1 and the restart summary when it had none; other runs are kept |
| TaskStore.RecoverTask | src/services/task-store.js:293-306 | a running task becomes "error" with end time now and the restart error when it had none; other tasks are kept |
| TaskStore.RecoveredRuns | src/services/task-store.js:296-301 | each run is recovered in place |
| TaskStore.RecoveredTasks | src/services/task-store.js:302-306 | each task is recovered in place |
| TaskStore.RecoveryStopsEveryRun | src/services/task-store.js:293-306 | after recovery no run is running; the running ones are "error" and the others unchanged |
| TaskStore.RecoveryKeepsIds | src/services/task-store.js:293-306 | recovery keeps run and task ids distinct |
| TaskStore.TaskStore.constructor | src/services/task-store.js:9-11 | the store starts with empty tables |
| TaskStore.TaskStore.EnsureUser | src/services/task-store.js:13-24 | only the user's row changes, to the touched user |
| TaskStore.TaskStore.SetUserSharedMemory | src/services/task-store.js:34-45 | the user is touched and the memory row holds the trimmed content; nothing else changes |
| TaskStore.TaskStore.AppendUserSharedMemory | src/services/task-store.js:47-55 | the tables are those of appending the trimmed text |
| TaskStore.TaskStore.ClearUserSharedMemory | src/services/task-store.js:57-59 | only the user's memory row is removed |
| TaskStore.TaskStore.SetUserDefaultProject | src/services/task-store.js:61-65 | only the user's row changes: touched, with the project or NULL |
| TaskStore.TaskStore.SetUserRunnerOverride | src/services/task-store.js:67-71 | only the user's row changes: touched, with the runner or NULL |
| TaskStore.TaskStore.SetUserOrchestratorOverride | src/services/task-store.js:73-77 | only the user's row changes: touched, with the provider or NULL |
| TaskStore.TaskStore.SetUserFocusedTask | src/services/task-store.js:79-83 | only the user's row changes: touched, with the focused task or NULL |
| TaskStore.TaskStore.SetPendingSelection | src/services/task-store.js:139-150 | the user is touched and the selection row holds the message, candidates, creation and expiry times |
| TaskStore.TaskStore.ClearPendingSelection | src/services/task-store.js:85-87 | only the user's selection row is removed |
| TaskStore.TaskStore.SetPendingConfirmation | src/services/task-store.js:101-126 | the user is touched and the confirmation row is replaced, kind 'unknown' when missing and an empty context as NULL |
| TaskStore.TaskStore.ClearPendingConfirmation | src/services/task-store.js:93-95 | only the user's confirmation row is removed |
| TaskStore.TaskStore.MarkInboundMessageProcessed | src/services/task-store.js:128-137 | without both ids the message is accepted and nothing is stored; otherwise it is accepted exactly when its key was new, and the key is recorded |
| TaskStore.TaskStore.CreateTask | src/services/task-store.js:152-164 | the user is touched and exactly the new waiting task is appended and returned |
| TaskStore.TaskStore.UpdateTask | src/services/task-store.js:190-210 | only the task rows change, by the patch |
| TaskStore.TaskStore.InsertTaskMessage | src/services/task-store.js:212-217 | exactly the message is appended, stamped now |
| TaskStore.TaskStore.CreateRunWithId | src/services/task-store.js:243-252 | exactly the new run is appended and returned |
| TaskStore.TaskStore.UpdateRun | src/services/task-store.js:273-291 | only the run rows change, by the patch |
| TaskStore.TaskStore.MarkOrphanedRunningRunsAsError | src/services/task-store.js:293-306 | runs and tasks are recovered and no run is left running |
| ExecutorLogic.QuotaLineIffUsageLimit | src/services/executor.js:33-36 | a line counts as a quota line exactly when it contains "usage limit" (the longer phrase contains it) |
| ExecutorLogic.AfterLastMarker | src/services/executor.js:95-97 | a prompt without "[PROMPT]" is kept; otherwise the result is trimmed and holds no further marker, being the text after the last one |
| ExecutorLogic.Normalize | src/services/executor.js:99 | collapsing whitespace runs to one space and trimming gives a trimmed string |
| ExecutorLogic.NormalizedSpacing | src/services/executor.js:99 | the normalised text never has two spaces in a row or any other whitespace than single spaces |
| ExecutorLogic.NormalizeKeepsAbsent | src/services/executor.js:95-99 | normalising cannot create a space-free word (such as the marker) that was not there |
| ExecutorLogic.BuildExecutionBrief | src/services/executor.js:90-104 | no brief exactly when both the prompt text and the title are blank; otherwise the prompt text wins, then the title, truncated to 220 characters |
| ExecutorLogic.BriefTextHasNoMarker | src/services/executor.js:95-99 | the brief's prompt text never contains "[PROMPT]" |
| ExecutorLogic.NewStream | src/services/executor.js:283-302 | a started run's state carries its run, task and phone, is not finalised and has no block reason, model, session, buffer or usage yet |
| ExecutorLogic.FirstWins | src/services/executor.js:331-351 | a value once present is kept; an absent one takes the new value when that is present |
| ExecutorLogic.BlockedAfterLine | src/services/executor.js:325-328 | a block reason once set sticks; otherwise a quota line sets "quota", and otherwise the runner's reported reason is taken |
| ExecutorLogic.AppendBounded | src/services/executor.js:353-358 | the assistant buffer is the last at most 120000 characters of the old buffer plus the delta |
| ExecutorLogic.UsageAfterLine | src/services/executor.js:329 | no report keeps the usage; merging never lowers the total and keeps a positive total positive |
| ExecutorLogic.StdoutStep | src/services/executor.js:323-370 | a stdout line keeps the run's identity, updates the block reason, and with a parsed update writes model and session only the first time, keeps the first final result, appends to the buffer and throttles the task update |
| ExecutorLogic.ParsedStep | src/services/executor.js:327-369 | a parsed update changes only usage, model, session, final result, buffer and the throttle state; model and session writes happen exactly when the value is new |
| ExecutorLogic.StderrStep | src/services/executor.js:371-378 | a stderr line updates the block reason and writes "stderr: " plus its first 120 characters exactly when a second has passed since the last update |
| ExecutorLogic.FirstWritesStick | src/services/executor.js:331-351 | over any sequence of lines, model, session, final result and block reason once present never change |
| ExecutorLogic.StepKeepsFirstWrites | src/services/executor.js:323-378 | one stdout or stderr line keeps every first write |
| ExecutorLogic.TerminalStatus | src/services/executor.js:429-435 | cancelled exactly on SIGTERM or SIGKILL; otherwise blocked exactly when a reason is present; otherwise done exactly on exit code 0, error otherwise |
| ExecutorLogic.TaskStatusAfter | src/services/executor.js:512-521 | done and cancelled carry over; waiting exactly for a purchase-confirmation block; everything else becomes error |
| ExecutorLogic.LastErrorAfter | src/services/executor.js:524 | an error stores "Exit <code>"; otherwise a block reason stores "Blocked: <reason>"; otherwise none |
| ExecutorLogic.ClosedTaskError | src/services/executor.js:429-435 | after a close, the task has no last error exactly when it is done or cancelled without a block reason, and it is never running or queued |
| ExecutorLogic.RunClosePatch | src/services/executor.js:498-504 | the run row gets the status, exit code, end time and the summary, an empty summary being NULL |
| ExecutorLogic.TaskClosePatch | src/services/executor.js:512-525 | the task row gets the mapped status, end time, the status name as last update and the last error |
| ExecutorLogic.FailRunPatch | src/services/executor.js:243 | a failed start marks the run error with exit code -1 and the given summary |
| ExecutorLogic.ReadSummary | src/services/executor.js:659-673 | the summary is trimmed; Codex with a last-message path reads that file; otherwise the final result, then the buffer, then last.txt |
| ExecutorLogic.ProviderUsageOfAccumulated | src/services/executor.js:440 | normalising an accumulated positive usage gives it back, marked as from the provider |
| ExecutorLogic.RunUsage | src/services/executor.js:440-444 | the provider's usage when it has some, otherwise an estimate from the prompt and the summary (or the buffer), whose total is input plus output |
| ExecutorLogic.CloseNotice | src/services/executor.js:527-626 | cancelled, blocked (reason or "unknown"), done (summary or "(sem resumo)" truncated to 3500) and error notices go to the matching status |
| ExecutorLogic.ResumePrompt | src/services/executor.js:537-540 | the resume prompt contains the purchase context text |
| ExecutorLogic.QueuedPrompt | src/services/executor.js:634-638 | a blank memory gives the trimmed queued content; otherwise the prompt starts with the memory header and memory and ends with the marker and the content |
| ExecutorLogic.ArtifactsDir | src/services/executor.js:190 | a run's artifacts directory lies under the runs directory and ends with the run id |
| ExecutorLogic.FindProc | src/services/executor.js:688 | a found process has the run id and is in the map; none is found exactly when no process has it |
| ExecutorLogic.RemoveProc | src/services/executor.js:394 | removal keeps exactly the processes of other runs |
| ExecutorLogic.StopSignals | src/services/executor.js:165-168 | every process gets SIGTERM and then SIGKILL, in order |
| ExecutorLogic.ReportLineFor | src/services/executor.js:715-721 | a report line has its position and task, and an update text that is never empty and at most 160 characters |
| ExecutorLogic.ReportNotice | src/services/executor.js:715-726 | the notice counts every task but lists the first at most five, numbered from 1 |
| ExecutorLogic.FirstTasks | src/services/executor.js:715 | the first min(n, count) tasks |
| ExecutorLogic.Phones | src/services/executor.js:708-712 | the phones of the tasks, each once |
| ExecutorLogic.PhoneTasks | src/services/executor.js:708-712 | exactly the tasks of one phone |
| ExecutorLogic.Reports | src/services/executor.js:714-727 | one message per distinct phone, in first-seen order |
| ExecutorLogic.ReportsPartitionTasks | src/services/executor.js:708-727 | every running task is in the report of its own phone, and no phone gets two reports |
| ExecutorLogic.RunningCountAfterUpdate | src/services/task-store.js:273-291 | updating one run row raises the running count by at most one |
| ExecutorLogic.OneActiveAfterUpdate | src/services/executor.js:173-181 | an update that makes no row newly active keeps at most one active run per task |
| ExecutorLogic.OneActiveAfterAppend | src/services/executor.js:173-202 | appending a run to a task without an active run keeps at most one active run per task |
| ExecutorLogic.OneActiveAfterRecovery | src/services/executor.js:137 | marking orphaned running runs as errors keeps at most one active run per task |
| ExecutorLogic.OnlyActiveRun | src/services/task-store.js:229-236 | with one active run per task, the active-run lookup returns that run |
| Executor.ClosedKeepsRunIds | src/services/executor.js:498-504 | closing a run keeps every run row's id in place |
| Executor.SummaryMessages | src/services/executor.js:506-510 | a close stores one assistant message exactly when the summary is not empty |
| Executor.NextResume | src/services/executor.js:629-650 | a queued item is resumed exactly when it has content and the task still exists for the same phone; the prompt adds the shared memory and the runner is the task's, else the run's |
| Executor.EnqueueDrains | src/services/executor.js:644-649 | enqueueing the resumed item is a drain step: one new run when accepted, nothing otherwise |
| Executor.DrainedThenTicked | src/services/executor.js:655 | the tick after the drain keeps what the drain promised |
| Executor.QueueHeadActivatesNothing | src/services/executor.js:232-236 | the head of the queue is queued, so updating it activates nothing new |
| Executor.TickSteps | src/services/executor.js:228-237 | one more admitted run extends the tick's progress |
| Executor.Executor.constructor | src/services/executor.js:128-134 | a new executor has no processes, streams or messages |
| Executor.Executor.Start | src/services/executor.js:136-158 | start recovers orphaned runs and tasks, leaving no run marked running |
| Executor.Executor.Stop | src/services/executor.js:160-170 | stop signals SIGTERM then SIGKILL to every process and clears the map, changing nothing else |
| Executor.Executor.EnqueueTaskRun | src/services/executor.js:172-224 | refused (already active or unknown runner) exactly when EnqueueRefusal says so, with only the refusal sent; otherwise one queued run with the fresh id, the task queued, then a tick |
| Executor.Executor.TickAfterEnqueue | src/services/executor.js:210-222 | the tick after an enqueue keeps every settled row and every id, touches only tasks and runs, only adds messages, and leaves the executor at capacity or with an empty queue |
| Executor.Executor.CreateQueued | src/services/executor.js:189-208 | the new run is queued with the fresh id, task, prompt and runner; the task is queued with no last error |
| Executor.Executor.Tick | src/services/executor.js:226-238 | tick admits runs from the queue head until the running count reaches the limit or the queue is empty |
| Executor.Executor.TickOnce | src/services/executor.js:229-236 | one iteration either stops (at capacity or empty queue, nothing changed) or admits the head, shrinking the queue |
| Executor.Executor.AdmitHead | src/services/executor.js:235-236 | admitting the head takes it out of the queue and touches only tasks and runs |
| Executor.Executor.StartRun | src/services/executor.js:240-388 | the head run's rows become those of AdmittedTables: an error for a missing task or unsupported runner, otherwise running, with the start message, stream and process |
| Executor.Executor.Launch | src/services/executor.js:271-388 | launching sends the starting message and records the run's stream and process |
| Executor.Executor.LeaveQueue | src/services/executor.js:241-269 | the run and task rows are patched and nothing else changes |
| Executor.Executor.OnStdoutLine | src/services/executor.js:323-370 | the stream and rows change exactly as StdoutStep says for the runner's parse of the line |
| Executor.Executor.OnStderrLine | src/services/executor.js:371-378 | the stream and the task row change exactly as StderrStep says |
| Executor.Executor.OnError | src/services/executor.js:390-420 | a finalised run ignores the error; otherwise the run and task become error with the message (default "spawn error"), the process is dropped and one notice is sent |
| Executor.Executor.Finalise | src/services/executor.js:422-626 | closes once: status, summary, usage event, rows (and the pending confirmation for a purchase block) and one message; a second close changes nothing |
| Executor.Executor.MarkClosed | src/services/executor.js:423-426 | the stream is finalised, the process dropped, the usage event recorded and the message sent |
| Executor.Executor.CloseRows | src/services/executor.js:498-549 | the rows become ClosedTables |
| Executor.Executor.WriteClosedRows | src/services/executor.js:498-525 | the rows become ClosedRows |
| Executor.Executor.OnClose | src/services/executor.js:422-656 | a finalised run ignores close; otherwise Finalise, then the drain of the task's queue on done, error or cancelled, then a tick |
| Executor.Executor.AfterClose | src/services/executor.js:628-655 | only done, error and cancelled pop the queue; the popped item is resumed as NextResume says, then a tick |
| Executor.Executor.RunNextItem | src/services/executor.js:629-651 | the task's queue is popped; nothing else changes when no item resumes, otherwise the resume notice is sent and the item enqueued |
| Executor.Executor.PendingResume | src/services/executor.js:630-638 | computes NextResume from the current rows |
| Executor.Executor.EnqueueResume | src/services/executor.js:640-649 | sends the resume notice and enqueues the resumed prompt as a drain step |
| Executor.Executor.CancelTask | src/services/executor.js:675-702 | the outcome, rows and signals are those of CancelOutcome, CancelledTables and CancelSignals |
| Executor.Executor.SetRows | src/services/executor.js:683-692 | the run and task rows are patched and nothing else changes |
| Executor.Executor.SendPeriodicReports | src/services/executor.js:704-728 | the messages sent are Reports of the running tasks, nothing else changes |
| Executor.GroupByPhone | src/services/executor.js:708-712 | the loop builds the phones in first-seen order and each phone's tasks |
| Executor.ReportMessages | src/services/executor.js:714-727 | the loop over the grouped phones sends exactly Reports |
| Executor.GroupStep | src/services/executor.js:709-712 | one task adds its phone if new and joins that phone's list |
| Executor.StartRunPatch | src/services/executor.js:256-260 | the run becomes running, started now |
| Executor.StartTaskPatch | src/services/executor.js:262-269 | the task becomes running with "Running" and no last error |
| Executor.UnsupportedTaskPatch | src/services/executor.js:250 | the task becomes error with "Runner not supported" |
| Executor.CancelRunPatch | src/services/executor.js:683 | the queued run becomes cancelled with exit code -1 |
| Executor.CancelTaskPatch | src/services/executor.js:684 | the task becomes cancelled, ended now |
| Executor.MissingTaskPatch | src/services/executor.js:692 | the task becomes error with "Process handle missing." |
| Executor.CancelPatchesSettle | src/services/executor.js:682-693 | cancel's patches activate no run |
| Executor.CancelCases | src/services/executor.js:675-702 | not_found exactly for an unknown task, no_active_run exactly without an active run; only a queued or handle-less run changes rows, and only a running one gets signals |
| Executor.CancelSettlesRun | src/services/executor.js:682-701 | a queued run ends cancelled, a handle-less one error, a running one keeps its row and is signalled |
| Executor.UpdatedRunFound | src/services/task-store.js:273-291 | an updated run is found with the patch applied |
| Executor.Admit | src/services/executor.js:241-252 | a missing task and an unsupported runner are told apart; the admitted runner's name is the run's |
| Executor.AdmitPatches | src/services/executor.js:241-269 | every admission moves the run out of queued |
| Executor.AdmittedOneMore | src/services/executor.js:228-237 | below the limit, admitting the queue head counts one more |
| Executor.EnqueueRefusalCases | src/services/executor.js:173-187 | no refusal exactly when the task has no active run and the runner is known; an active run is refused first |
| Executor.LeaveQueueHead | src/services/executor.js:235-236 | patching the head out of queued leaves the queue head |
| Executor.SettledRowsKept | src/services/task-store.js:273-291 | updating a queued row keeps every other row and all ids |
| InboundCore.ExtractPhone | src/services/inbound-core.js:31-35 | the phone is a non-empty prefix of the JID without '@' or ':'; a bare phone is its own phone; none for an empty left part |
| InboundCore.ExtractPhoneOfJid | src/services/inbound-core.js:31-35 | "phone@server" and "phone:device@server" both give back the phone |
| InboundCore.ParseDiscordActor | src/services/inbound-core.js:41-51 | a parsed actor starts with "dc:" after trimming, and its guild (without ':') and channel are non-empty and trimmed |
| InboundCore.ParseDiscordActorPadded | src/services/inbound-core.js:41-51 | the actor id built from a guild and a channel parses back to them, also with surrounding spaces |
| InboundCore.ShellSplit2 | src/services/inbound-core.js:70-80 | a result exists exactly when the trimmed text has at least two white-space separated words; it is the first word, the second word and the remaining words joined by single spaces, whatever white space separated them |
| InboundCore.WordsOfJoin | src/services/inbound-core.js:74-78 | splitting words joined by single spaces gives the words back |
| InboundCore.ShellSplit2OfWords | src/services/inbound-core.js:70-80 | for at least two words joined by spaces, a and b are the first two and rest is the others joined by spaces |
| InboundCore.FlagsFrom | src/services/inbound-core.js:86-109 | positionals already collected stay first and new ones are non-flag tokens; every new flag key is non-empty and came from a "--key" token |
| InboundCore.ParseFlags | src/services/inbound-core.js:82-112 | every positional is a non-flag word of the text and every flag key k has "--k" among the words |
| InboundCore.ParseFlagArgs | src/services/inbound-core.js:82-112 | the index loop computes ParseFlags |
| InboundCore.PlainStep | src/services/inbound-core.js:88-91 | a plain token becomes the next positional |
| InboundCore.NameStep | src/services/inbound-core.js:96-100 | "--name" takes the rest of the tokens joined by spaces and stops |
| InboundCore.PlainTokensArePositional | src/services/inbound-core.js:82-112 | tokens without flags all become positionals, in order |
| InboundCore.NameTakesTheRest | src/services/inbound-core.js:82-112 | plain tokens then "--name" give those positionals and a name made of everything after |
| InboundCore.HexEnd | src/services/inbound-core.js:159 | the end of the run of hex digits starting at k |
| InboundCore.AfterTaskId | src/services/inbound-core.js:159-161 | after a task id, optional spaces, ':' and a message give that id and the trimmed message |
| InboundCore.ParseTaskPrefix | src/services/inbound-core.js:158-162 | a parsed prefix has a task-id-shaped id (two alphanumerics, or "task-" and six or more hex digits, any case) at the start of the text and a trimmed message |
| InboundCore.ParseTaskPrefixOf | src/services/inbound-core.js:158-162 | "id: message" with a task-id-shaped id and a trimmed message parses to exactly that id and message |
| InboundCore.ShortIdOf | src/services/inbound-core.js:159 | a two-character id is read by the short alternative |
| InboundCore.LongIdOf | src/services/inbound-core.js:159 | a longer id is not read by the short alternative and is read by the long one |
| InboundCore.BlankMessageMatches | src/services/inbound-core.js:159-161 | "ab: " matches with an empty message, because the message pattern may match the whitespace the separator left |
| InboundCore.ParseSelectionReply | src/services/inbound-core.js:164-169 | a reply is read exactly when the trimmed text is all digits or task-id-shaped; a task id reply is task-id-shaped |
| InboundCore.SelectionOfNumber | src/services/inbound-core.js:166 | a number's decimal text is read as that position |
| InboundCore.SelectionOfTaskId | src/services/inbound-core.js:167 | a task id that is not all digits is read as that task id |
| InboundCore.DigitsReadAsPosition | src/services/inbound-core.js:166-167 | two digits are task-id-shaped but are read as a position, because the digit test comes first |
| InboundCore.PurchaseConfirmationAnyCase | src/services/inbound-core.js:179-184 | every confirmation phrase, in any letter case, is a confirmation, and a confirmation is never blank |
| InboundAdmission.AdminCommandIsSlashed | src/services/inbound-core.js:1674-1675 | a channel admin command starts with '/' |
| InboundAdmission.ShouldAllowDiscordMessage | src/services/inbound-core.js:1664-1682 | admitted only with non-empty ids of an allowed guild and an enabled channel, or for a channel admin command from an admin; the refusal reasons match their conditions |
| InboundAdmission.ActorIdsFallBack | src/services/inbound-core.js:1665-1667 | without payload ids, the guild and channel come from the actor id |
| InboundAdmission.EnabledChannelAdmits | src/services/inbound-core.js:1664-1682 | an enabled channel of an allowed guild admits every message |
| InboundAdmission.DisabledChannelGate | src/services/inbound-core.js:1674-1679 | a disabled channel admits exactly the channel admin commands of an admin and refuses everything else as channel_disabled |
| InboundAdmission.Screen | src/services/inbound-core.js:1686-1714 | a payload passes exactly when it has an actor and a handled type and is from an authorised WhatsApp number or is a Discord message that ShouldAllowDiscordMessage admits |
| InboundAdmission.Delivery | src/services/inbound-core.js:1728-1759 | a non-empty trimmed text starting with '/' goes to the commands, other text to the user-message flow, and media only for WhatsApp with raw data |
| InboundAdmission.ProcessInboundMessage | src/services/inbound-core.js:1684-1763 | the verdict and the new rows are those of Inbound |
| InboundAdmission.RedeliveryIsDropped | src/services/inbound-core.js:1716-1724 | a second delivery of the same instance and message id is dropped as a duplicate and changes nothing |
| InboundAdmission.DiscordScreen | src/services/inbound-core.js:1698-1711 | a Discord payload passes the screen exactly when ShouldAllowDiscordMessage admits it, and is otherwise rejected with its reason |
| InboundAdmission.SlashTextIsCommand | src/services/inbound-core.js:1728-1740 | an admitted, new text starting with '/' goes to the commands with the trimmed text |
| InboundAdmission.DisabledChannelCreatesNoTask | src/services/inbound-core.js:1664-1682 | on a disabled channel a non-admin's text is rejected and changes no row; an admin's reaches the commands only if it is a channel admin command |
| InboundRouting.ResolveRunnerForUser | src/services/inbound-core.js:969-976 | the kind is supported and never "auto"; a supported override wins, then a supported global default, else codex-cli |
| InboundRouting.ForcedRunnerKind | src/services/inbound-core.js:1267-1270 | a concrete task runner is forced; otherwise a concrete user override; otherwise nothing is forced |
| InboundRouting.FinalRunnerKind | src/services/inbound-core.js:1615-1622 | the run's kind is supported and never "auto"; a supported forced kind wins, then a supported planner choice |
| InboundRouting.TaskRunnerWins | src/services/inbound-core.js:1267-1270 | a supported task runner is the final kind whatever the override and the plan |
| InboundRouting.PlannerChoosesWhenAuto | src/services/inbound-core.js:1265-1270 | with an "auto" task and no concrete override, a supported planner choice is used |
| InboundRouting.TaskIds | src/services/inbound-core.js:1202 | the ids of the tasks, in order |
| InboundRouting.ConfirmedTask | src/services/inbound-core.js:196-200 | the confirmation's task, only when it exists and belongs to the phone |
| InboundRouting.ConfirmationAudit | src/services/inbound-core.js:202 | "User confirmed purchase: " followed by at most 200 characters of the text |
| InboundRouting.Resumption | src/services/inbound-core.js:196-203 | the confirmation is cleared; only for a task of the phone, the audit message is added; nothing else changes |
| InboundRouting.Expired | src/services/inbound-core.js:1128-1147 | an expired selection and an expired confirmation are removed, live ones are kept, no other table changes |
| InboundRouting.FocusedTask | src/services/inbound-core.js:1181-1187 | a focused task exists and belongs to the phone |
| InboundRouting.ChooseRoute | src/services/inbound-core.js:1149-1218 | a task prefix routes to that task; a selection reply only with a pending question; a focused route names the focused task, an active route an active task, a question 2 to 6 active candidates outside fixed-task mode; a new task exactly when nothing else applies |
| InboundRouting.ChooseRouteSteps | src/services/inbound-core.js:1149-1178 | a reply to a pending question picks the candidate Chosen names, and is invalid exactly when it names none; a text that is neither a task prefix nor such a reply is routed by ActiveRoute |
| InboundRouting.ActiveRoute | src/services/inbound-core.js:1178-1218 | focused exactly when a focused task of the phone exists; an active route names an active task; a question only outside fixed-task mode, with 2 to 6 active candidates; a new task exactly without focus and active tasks |
| InboundRouting.ActiveRouteChoice | src/services/inbound-core.js:1178-1218 | without a focused task: the newest active task exactly in fixed-task mode or when it is the only one; otherwise, with several, a question listing the first six active tasks (newest first) in order |
| InboundRouting.AskAmong | src/services/inbound-core.js:1201-1204 | the question lists the first at most six active tasks' ids, at least two |
| InboundRouting.CreatedTask | src/services/inbound-core.js:1220-1230 | the new task has the fresh id, the phone, a supported runner and a title that is the first at most 80 characters of the text |
| InboundRouting.RouteDecision | src/services/inbound-core.js:1236-1279 | not found exactly for a missing or foreign task; queued exactly when the task has an active run; otherwise orchestrated with the trimmed message and the forced kind |
| InboundRouting.RoutedTables | src/services/inbound-core.js:1236-1244 | a missing or foreign task changes nothing; otherwise the task is focused and the user's message is stored, and no task, run or pending selection changes |
| InboundRouting.RouteToTask | src/services/inbound-core.js:1236-1255 | the outcome and the new rows are RouteDecision and RoutedTables |
| InboundRouting.ResumePendingConfirmation | src/services/inbound-core.js:186-212 | the rows become Resumption; a resumed route exists exactly for a task of the phone and carries the stored prompt and runner kind |
| InboundRouting.Prepare | src/services/inbound-core.js:1125-1147 | resumes exactly when a live confirmation is confirmed for a task of the phone; otherwise leaves the expired-cleared rows |
| InboundRouting.Dispatch | src/services/inbound-core.js:1149-1233 | the rows become Dispatched for the chosen route |
| InboundRouting.ProcessUserMessage | src/services/inbound-core.js:1124-1234 | the route, the routing outcome and the new rows are UserMessageRoute, UserMessageOutcome and AfterUserMessage |
| InboundRouting.NoColonNoPrefix | src/services/inbound-core.js:158-162 | a text without ':' has no task prefix |
| InboundRouting.DigitsConfirmNothing | src/services/inbound-core.js:179-184 | a number is never a purchase confirmation |
| InboundRouting.OverrideKept | src/services/inbound-core.js:1125-1147 | touching the user and expiring pending state keeps the runner override |
| InboundRouting.AskStoresQuestion | src/services/inbound-core.js:1201-1204 | asking stores the text and the candidates, expiring after the selection TTL |
| InboundRouting.NumberAnswersQuestion | src/services/inbound-core.js:1155-1171 | a number n answering a live question routes the original message to candidate n |
| InboundRouting.AnswerClearsQuestion | src/services/inbound-core.js:1168-1170 | answering a question clears it |
| InboundRouting.ConfirmationResumesTask | src/services/inbound-core.js:1128-1135 | a live confirmation confirmed for a task of the phone resumes it with the stored prompt and runner, without routing, clearing the confirmation and adding the audit message |
| InboundRouting.StaleConfirmationRoute | src/services/inbound-core.js:196-200 | a confirmation for a missing or foreign task resumes nothing and the message routes as without it |
| InboundRouting.StaleConfirmationCleared | src/services/inbound-core.js:196-200 | that confirmation is cleared and no audit message is added |
| InboundRouting.ReplyPicksCandidate | src/services/inbound-core.js:1155-1171 | after a question, replying with n in time routes the original text to candidate n and clears the question |
| InboundRouting.NewTaskStaged | src/services/inbound-core.js:1220-1231 | a new task is appended, nothing else but the user changes, the runner override kept |
| InboundRouting.RouteToFreshTask | src/services/inbound-core.js:1236-1279 | a fresh task of the phone is orchestrated with the trimmed message |
| InboundRouting.NewTaskTakesMessage | src/services/inbound-core.js:1220-1233 | without active tasks, one task is created with the resolved runner and an 80-character title, and the message is stored for it |
| InboundRouting.InvalidSelectionKeepsQuestion | src/services/inbound-core.js:1163-1166 | an invalid selection keeps the question and changes no task or message |
| Paths.BeforeFirst | src/services/project-manager.js:27 | the text before the first separator: a prefix without it, the whole text when absent |
| Paths.TrimEndChar | src/services/project-manager.js:28 | the longest prefix not ending in the character |
| Paths.AfterLast | src/services/project-manager.js:28 | the suffix after the last separator, without it |
| Paths.NameOfPath | src/services/project-manager.js:28-29 | the name holds no '/' |
| Paths.RepoName | src/services/project-manager.js:24-30 | a blank URL gives the empty name; a name holds no '/' or '?' (inbound-core.js's identical `repoBasename` at lines 114-121 is the same function) |
| Paths.RepoNameOfCloneUrl | src/services/project-manager.js:24-30 | the name of "base/name.git", with or without a query, is name |
| Paths.NormalizeSegmentsNormalized | src/services/project-manager.js:38 | path normalisation leaves no "." or empty segment and ".." only at the front |
| Paths.NormalizeSegmentsFixed | src/services/project-manager.js:38 | normalising twice is normalising once |
| Paths.PathSegments | src/services/project-manager.js:38 | the segments of a normalised path are normalised and free of '/' |
| Paths.TraversalIffLeadingDotDot | src/services/project-manager.js:38-41 | the normalised path is refused as traversal exactly when its first kept segment is ".." |
| Paths.ChildPath | src/services/project-manager.js:43 | the resolved path ends with the relative name |
| Paths.ResolveUnderRoot | src/services/project-manager.js:32-48 | a blank path, an absolute path and a climbing path fail with their own errors; success is the root or below "root/" |
| Paths.ResolveStaysUnderRoot | src/services/project-manager.js:32-48 | under a root other than "/", a relative non-climbing path resolves to the root or its kept segments under it |
| Paths.RootDirRefusesSubfolders | src/services/project-manager.js:43-46 | under the root "/", every relative non-climbing path with a segment is refused as outside the root |
| Paths.ResolveUnderRootFixed | src/services/project-manager.js:32-48 | the corrected check gives the same errors and a success below the root |
| Paths.FixedStaysUnderRoot | src/services/project-manager.js:32-48 | with the corrected check no root refuses a relative non-climbing path |
| Slugs.Dashify | src/services/project-manager.js:20 | the result holds only [a-z0-9] and dashes, never two dashes in a row, and keeps a leading letter or digit |
| Slugs.TrimDashStart | src/services/project-manager.js:21 | leading dashes are removed |
| Slugs.TrimDashEnd | src/services/project-manager.js:21 | trailing dashes are removed |
| Slugs.Slugify | src/services/project-manager.js:16-22 | the result is a slug: lower-case letters, digits and single inner dashes only |
| Slugs.SlugifyKeepsSlug | src/services/project-manager.js:16-22 | a slug is its own slug |
| Slugs.SlugifyIdempotent | src/services/project-manager.js:16-22 | slugifying twice is slugifying once (the identical slugify of scripts/init-projects.js, lines 14-20, included) |
| Orchestrator.ClassifyGeminiFailure | src/services/orchestrator.js:28-53 | capacity (10-minute cooldown) exactly for a capacity or 429 message; otherwise quota (one hour) exactly for a usage-limit or quota message; otherwise none |
| Orchestrator.ClassifyIgnoresCase | src/services/orchestrator.js:29 | classification ignores letter case |
| Orchestrator.NormalizeProvider | src/services/orchestrator.js:55-62 | a provider exactly for "openrouter", "gemini-cli" or "auto" after trimming and lower-casing, and it is that provider |
| Orchestrator.NormalizeProviderName | src/services/orchestrator.js:55-62 | every provider's name normalises back to it |
| Orchestrator.PreferredProvider | src/services/orchestrator.js:111-114 | the user's override wins, then the stored setting, then the configured provider, then gemini-cli |
| Orchestrator.GlobalRunnerDefault | src/services/orchestrator.js:116 | the global runner default is never empty |
| Orchestrator.DefaultRunnerKind | src/services/orchestrator.js:117-122 | the planner's default runner is supported, never "auto"; a supported concrete preference wins, then a supported global default, else codex-cli |
| Orchestrator.ShouldReplyAsGreeting | src/services/orchestrator.js:64-72 | with the list as the source holds it: a blank text is a greeting; a non-blank text whose trimmed, lower-cased form is not listed is not; a greeting's trimmed text has at most 9 characters |
| Orchestrator.ShouldReplyAsGreetingIntended | src/services/orchestrator.js:64-72 | the same test over the list with "olá" spelled correctly: blank texts are greetings, unlisted non-blank texts are not |
| Orchestrator.AccentedGreetingUnreachable | src/services/orchestrator.js:64-72 | no text, trimmed and lower-cased, equals the list's third entry "olÃ¡" |
| Orchestrator.AccentedGreetingMissedAsWritten | src/services/orchestrator.js:64-72 | "olá" is not a greeting for the list as written, and is one for the intended list |
| Orchestrator.GreetingIgnoresSurroundingSpace | src/services/orchestrator.js:65 | surrounding white space does not change the answer |
| Orchestrator.GreetingsAnswered | src/services/orchestrator.js:64-72 | every listed greeting except the mis-encoded third one, in lower or upper case, is answered locally |
| Orchestrator.IntendedGreetingsAnswered | src/services/orchestrator.js:64-72 | with the intended list, every greeting, in lower or upper case, is answered locally |
| Orchestrator.PlannerBudget | src/services/orchestrator.js:142-146 | the call budget is at least 1 (default 12000), the task total at least the call budget (default 120000), the remaining budget never negative, and the budget before the call between 1 and the call budget |
| Orchestrator.BudgetAfter | src/services/orchestrator.js:264 | the remaining budget after a call is the difference, floored at zero |
| Orchestrator.AsContext | src/services/orchestrator.js:148-161 | the task messages become context messages with the same roles and contents, in order |
| Orchestrator.Prepare | src/services/orchestrator.js:142-200 | compaction happens exactly when the first prompt's estimate exceeds the budget; without it the context, memory and messages are the originals; with it they are the compacted ones |
| Orchestrator.ProvidersToTry | src/services/orchestrator.js:202-210 | only OpenRouter exactly when it is preferred or Gemini is in cooldown; otherwise Gemini then OpenRouter |
| Orchestrator.ProviderOrderShape | src/services/orchestrator.js:202-210 | one or two providers, OpenRouter last, never "auto", Gemini first exactly when it is tried |
| Orchestrator.AfterFailure | src/services/orchestrator.js:314-322 | only a classified Gemini failure opens the breaker, until now plus its cooldown, with its kind and message |
| Orchestrator.OpenBreakerSkipsGemini | src/services/orchestrator.js:204-210 | within ten minutes of a classified Gemini failure only OpenRouter is tried |
| Orchestrator.WithDefaultRunner | src/services/orchestrator.js:246-248 | a run plan without a runner gets the default one; every other plan is unchanged |
| Orchestrator.AttemptPlan | src/services/orchestrator.js:215-253 | a thrown provider fails with its error; success exactly when the reply holds a JSON object that validates, giving that plan with the default runner and the reported or estimated usage |
| Orchestrator.Attempts | src/services/orchestrator.js:214-326 | one attempt per provider, in order |
| Orchestrator.FirstSuccess | src/services/orchestrator.js:214-326 | the first successful attempt after only failures, or none exactly when all fail |
| Orchestrator.ErrorsOf | src/services/orchestrator.js:323 | the first n errors, each with its provider |
| Orchestrator.CircuitAfterChanges | src/services/orchestrator.js:315-322 | the breaker changes only after a classified Gemini failure, recording its message |
| Orchestrator.ErrorLines | src/services/orchestrator.js:328 | each error becomes "provider: error" |
| Orchestrator.FailureMessage | src/services/orchestrator.js:328-329 | the failure starts with "Planner failed: " and ends with the error lines joined by a spaced vertical bar |
| Orchestrator.GreetingOutcome | src/services/orchestrator.js:124-140 | a local reply plan from "local-heuristic", not a fallback, with zero estimated usage |
| Orchestrator.AttemptLoopAt | src/services/orchestrator.js:214-313 | the loop ends with the first success, its earlier errors and the breaker after them |
| Orchestrator.AttemptLoopNone | src/services/orchestrator.js:214-329 | when every provider fails the outcome is the failure message of all errors |
| Orchestrator.AttemptLoopSuccess | src/services/orchestrator.js:301-313 | a planned outcome comes from the first successful provider; it is a fallback exactly when that is not the first, and only then carries the earlier errors |
| Orchestrator.AttemptLoopFailure | src/services/orchestrator.js:328-329 | the planner fails exactly when every provider fails, with one error line per provider |
| Orchestrator.AttemptLoopBreaker | src/services/orchestrator.js:315-322 | a changed breaker was set by a classified Gemini failure of this call |
| Orchestrator.GreetingAnsweredLocally | src/services/orchestrator.js:124-140 | a greeting is answered with the local reply, no provider is asked and the breaker is unchanged |
| Orchestrator.GeminiOrchestrator.constructor | src/services/orchestrator.js:22-26 | the breaker starts closed |
| Orchestrator.GeminiOrchestrator.RecordFailure | src/services/orchestrator.js:314-322 | the breaker becomes AfterFailure of the old one |
| Orchestrator.GeminiOrchestrator.TryProviders | src/services/orchestrator.js:214-329 | the loop's outcome and breaker are those of AttemptLoop over the providers' attempts |
| Orchestrator.GeminiOrchestrator.PlanWithProviders | src/services/orchestrator.js:142-329 | the outcome and the breaker are ProviderPath of the request |
| Orchestrator.GeminiOrchestrator.OrchestrateTaskMessage | src/services/orchestrator.js:103-330 | the outcome and the breaker are Orchestrate of the request |
| Orchestrator.FirstSuccessAt | src/services/orchestrator.js:214-326 | the provider answering first after failures of all earlier ones is the one used |
| Orchestrator.FirstSuccessNone | src/services/orchestrator.js:214-326 | when every provider fails, none answers |
| ProjectManager.IndexOfId | src/services/project-manager.js:215 | the first index holding the id, or -1 exactly when no entry has it |
| ProjectManager.Get | src/services/project-manager.js:252-254 | a found project is in the map with that id; none exactly when no project has it |
| ProjectManager.SetByIdSpec | src/services/project-manager.js:80-85 | setting by id keeps ids unique, makes the id map to the new project, leaves other ids alone and grows only for a new id |
| ProjectManager.LastWithId | src/services/project-manager.js:65 | the last entry with the id, or none exactly when no entry has it |
| ProjectManager.IndexedSpec | src/services/project-manager.js:65 | indexing the file by id keeps ids unique and each id maps to its last entry |
| ProjectManager.WithDefaults | src/services/project-manager.js:107-112 | the name defaults to the id and the type to "generic"; id and cwd are kept |
| ProjectManager.FirstInvalid | src/services/project-manager.js:102-105 | the index of the first entry lacking id or cwd, every earlier one valid |
| ProjectManager.LoadedSpec | src/services/project-manager.js:97-113 | loading valid entries gives unique ids, each mapping to its last entry with defaults, all with a name and a type |
| ProjectManager.Merge | src/services/project-manager.js:80-85 | id and cwd come from the new entry; a given name or type replaces the old, a missing one keeps it; a new id is stored as given |
| ProjectManager.UpsertAllSpec | src/services/project-manager.js:63-95 | ids stay unique, ids of no accepted entry are unchanged, and the last accepted entry's id maps to its trimmed cwd |
| ProjectManager.UpsertOneSpec | src/services/project-manager.js:68-87 | an entry lacking id or cwd is skipped; otherwise its trimmed id maps to the merge with the existing project, other ids unchanged |
| ProjectManager.UpsertAllNonEmpty | src/services/project-manager.js:63-95 | a non-empty map, or any accepted entry, gives a non-empty list |
| ProjectManager.UpsertRowSpec | src/services/project-manager.js:214-225 | an existing id is replaced in place with the new id and cwd, every other entry kept; a new id is appended; ids stay unique |
| ProjectManager.RemoveId | src/services/project-manager.js:241 | the entries kept are old entries without the id |
| ProjectManager.RemoveIdSpec | src/services/project-manager.js:241-245 | every entry with another id is kept, and the length is unchanged exactly when the id is absent |
| ProjectManager.Suffixed | src/services/project-manager.js:190 | a suffixed id starts with the slug |
| ProjectManager.SuffixedInjective | src/services/project-manager.js:188-190 | different suffix numbers give different ids |
| ProjectManager.FoldersOf | src/services/project-manager.js:181-185 | each folder name carries its slug |
| ProjectManager.FreeSuffix | src/services/project-manager.js:187-190 | the loop finds the smallest n >= 2 whose suffixed id is unused |
| ProjectManager.RowsChosenFresh | src/services/project-manager.js:180-196 | the added ids are pairwise distinct and none was used before |
| ProjectManager.ScanFolders | src/services/project-manager.js:180-196 | the loop adds one row per eligible folder, with unique ids distinct from the existing ones, the first accepted |
| ProjectManager.ScanNext | src/services/project-manager.js:181-196 | one loop step keeps the scan invariant |
| ProjectManager.ChooseId | src/services/project-manager.js:185-191 | the chosen id starts with the slug and is unused: the slug itself when free, else the smallest free suffix |
| ProjectManager.ScanStep | src/services/project-manager.js:182-193 | a folder with a used cwd or an empty slug is skipped; otherwise it gets a row with a fresh id that bulkUpsertProjects accepts |
| ProjectManager.Manager.constructor | src/services/project-manager.js:11-14 | the map starts empty over the given file |
| ProjectManager.Manager.LoadProjects | src/services/project-manager.js:97-119 | an empty file fails and changes nothing; a valid file loads fully; the first invalid entry fails with the entries before it loaded |
| ProjectManager.Manager.BulkUpsertProjects | src/services/project-manager.js:63-95 | an empty file fails; nothing accepted gives changed false and count 0 and changes nothing; otherwise the file is merged by id and reloaded with the count of given entries |
| ProjectManager.Manager.UpsertProject | src/services/project-manager.js:208-231 | a blank id or cwd fails with its error; an empty file fails; otherwise the row is replaced or appended, the file reloaded and the project returned |
| ProjectManager.Manager.RemoveProject | src/services/project-manager.js:236-250 | a blank id fails; removing the last project fails; an absent id gives false and changes nothing; otherwise the id is removed and the file reloaded |
| ProjectManager.Manager.GetProject | src/services/project-manager.js:252-254 | a found project is loaded with that id; none exactly when no loaded project has it |
| ProjectManager.Manager.GetDefaultProject | src/services/project-manager.js:256-269 | the configured project when loaded, else the first, failing exactly when none is loaded |
| ProjectManager.Manager.ScanDevelopmentRoot | src/services/project-manager.js:166-202 | a non-directory root and an empty file fail; no eligible folder adds nothing; otherwise the chosen rows are bulk upserted and returned |
| ProjectManager.TakenCount | src/services/project-manager.js:187-191 | before suffix n, exactly n - 2 suffixed ids have been tried |
| ProjectManager.SuffixChoice | src/services/project-manager.js:187-191 | with the slug taken, the first free suffix n >= 2 is the id chosen |
| ProjectManager.ScanDone | src/services/project-manager.js:180-196 | after the last folder the rows added are the eligible folders' rows, with unique ids none of which was in use |
| ProjectManager.ScannedRowAccepted | src/services/project-manager.js:192-193 | a row built from a folder under the root, with an id starting with a non-empty slug, passes bulkUpsertProjects' check |
| Settings.ConfiguredProvider | src/services/settings.js:37 | never "auto": "auto" becomes "gemini-cli", any other configured provider is kept |
| Settings.Defaults | src/services/settings.js:36-46 | nine defaults with pairwise distinct keys |
| Settings.ParsePositiveIntOr | src/services/settings.js:62-67 | the parsed integer when there is one within [min, max], else the default |
| Settings.TaskIdLengthOf | src/services/settings.js:69-71 | always within 1..8, and 2 when the setting is missing |
| Settings.ProjectTaskHistoryLimitOf | src/services/settings.js:73-75 | always within 1..500, and 15 when the setting is missing |
| Settings.TaskIdLengthRoundTrip | src/services/settings.js:26-33 | storing any length in 1..8 reads back as that length |
| Settings.HistoryLimitRoundTrip | src/services/settings.js:26-33 | storing any limit in 1..500 reads back as that limit |
| Settings.SettingsStore.constructor | src/services/settings.js:20-24 | the table starts empty |
| Settings.SettingsStore.GetSetting | src/services/settings.js:20-24 | the stored value exactly when the key is present, else null |
| Settings.SettingsStore.SetSetting | src/services/settings.js:26-33 | the key maps to the value afterwards and nothing else changes |
| Settings.SettingsStore.EnsureDefaultSettings | src/services/settings.js:35-52 | existing keys keep their values, every default key is present, a missing one gets its default, and no other key appears |
| Settings.SettingsStore.WriteMissing | src/services/settings.js:48-51 | the loop writes only missing keys, keeping every existing value and adding no other key |
| Settings.SettingsStore.GetRunnerDefault | src/services/settings.js:54-56 | a non-empty stored value wins, otherwise the configured default |
| Settings.SettingsStore.GetOrchestratorProviderDefault | src/services/settings.js:58-60 | a non-empty stored value wins, otherwise the configured provider with "auto" mapped away |
| Settings.SettingsStore.GetTaskIdLength | src/services/settings.js:69-71 | always within 1..8 |
| Settings.SettingsStore.GetProjectTaskHistoryLimit | src/services/settings.js:73-75 | always within 1..500 |
| InitProjects.NormalizePhone | scripts/init-projects.js:34-38 | fails with "Phone number is required" exactly when the input has no digit; otherwise its digits, all digits |
| InitProjects.DigitsOnlyKeepsDigits | scripts/init-projects.js:35 | stripping non-digits leaves an all-digit string unchanged |
| InitProjects.NormalizePhoneIdempotent | scripts/init-projects.js:34-38 | normalising a normalised phone gives it back |
| InitProjects.ParseCsv | scripts/init-projects.js:40-45 | every item is trimmed, non-empty and free of commas |
| InitProjects.SplitChars | scripts/init-projects.js:42 | splitting keeps every piece within the characters of the input |
| InitProjects.TrimmedChars | scripts/init-projects.js:43-44 | trimming and dropping empty items keeps every item within the characters of the input |
| InitProjects.CsvChars | scripts/init-projects.js:40-45 | every parsed item uses only characters of the input |
| InitProjects.FirstKeyLine | scripts/init-projects.js:49-50 | a found position starts a line holding key= |
| InitProjects.FirstKeyLineMinimal | scripts/init-projects.js:49-50 | no earlier position starts such a line, so the match is the first one |
| InitProjects.FirstKeyLineFrom | scripts/init-projects.js:49-50 | the first line start holding key= is the one found |
| InitProjects.LineEnd | scripts/init-projects.js:49 | the end of the line: a line break or the end of text, with no break before it |
| InitProjects.EnvValueNoBreak | scripts/init-projects.js:67-68 | a value read from a key line holds no line break |
| InitProjects.ReplacedLine | scripts/init-projects.js:50 | when the key has a line, that first line is rewritten to key=value and stays the first match |
| InitProjects.AppendedLine | scripts/init-projects.js:51-52 | without a key line, key=value is appended after a line break and becomes the first match |
| InitProjects.WrittenReadsBack | scripts/init-projects.js:67-74 | a written key line that is the first match reads back as its value |
| InitProjects.UpsertThenRead | scripts/init-projects.js:47-53 | after upserting key=value, reading the key gives the value back |
| InitProjects.AllowedPhones | scripts/init-projects.js:67-68 | every allowed phone read back is trimmed, non-empty and comma-free |
| InitProjects.AddPhone | scripts/init-projects.js:69 | the phone is in the result; a listed phone leaves the list unchanged, a new one is appended |
| InitProjects.AddPhoneIdempotent | scripts/init-projects.js:69 | adding a phone twice equals adding it once |
| InitProjects.WithPhoneReadsBack | scripts/init-projects.js:67-71 | after writing the list, reading the allowed phones gives the old list with the phone added |
| InitProjects.WithPhoneIdempotent | scripts/init-projects.js:67-71 | after the write, the phone is already in the allowed list |
| InitProjects.CsvHasNoLineBreak | scripts/init-projects.js:71 | a comma join of items without line breaks has none |
| InitProjects.UpdateEnvWithPhoneAndDefaultProject | scripts/init-projects.js:63-80 | the phone joins the allowed list; the default project is written only when the current one is empty or a placeholder, and then reads back |
| MessageSplit.CutPoint | src/services/whatsapp.js:37-43 | the cut lies in 1..max and falls at max, at a line break or at a space |
| MessageSplit.PiecesBounded | src/services/whatsapp.js:31-47 | every piece is non-empty and at most max long |
| MessageSplit.PiecesReassemble | src/services/whatsapp.js:31-47 | the pieces rebuild the text, with only the whitespace trimmed at each cut lost |
| MessageSplit.SplitSpecProperties | src/services/whatsapp.js:25-50 | a short text is one part; a long one reassembles from parts each within 1..max characters |
| MessageSplit.CutStep | src/services/whatsapp.js:45-46 | one cut followed by splitting the trimmed rest gives the same parts as splitting the whole |
| MessageSplit.LastStep | src/services/whatsapp.js:32-34 | a remainder within the limit is the last part |
| MessageSplit.SplitMessage | src/services/whatsapp.js:25-50 | the loop produces exactly the split specification |
| WhatsApp.SplitMessage | src/services/whatsapp.js:25-50 | splits with the adapter's 4000-character limit |
| WhatsApp.ToJid | src/services/whatsapp.js:80-88 | a blank input fails with "Phone/JID is required"; one holding '@' is returned trimmed; one without digits fails with "Invalid phone number"; a result holds '@' and is trimmed |
| WhatsApp.ToJidOfNumber | src/services/whatsapp.js:85-87 | a number becomes its digits plus "@s.whatsapp.net", which is not a group JID |
| WhatsApp.ToJidIdempotent | src/services/whatsapp.js:80-88 | a JID maps to itself |
| WhatsApp.KindOf | src/services/whatsapp.js:108-175 | conversation and extended text are text, imageMessage is an image, audioMessage is a voice note exactly when ptt is set and audio otherwise |
| WhatsApp.NormalizeInboundMessage | src/services/whatsapp.js:94-178 | a message is kept exactly when it has a key and a known content type; the sender is the participant or the chat, group flag from the JID, media flagged for non-text, the text or the caption carried |
| WhatsApp.ReconnectCases | src/services/whatsapp.js:259-262 | a requested stop, a logged-out session and a bad session never reconnect; every other close does |
| WhatsApp.SendPlan | src/services/whatsapp.js:361-371 | the JID error, or the JID with the text split at 4000 characters |
| WhatsApp.AfterLastComma | src/services/whatsapp.js:378 | the longest comma-free suffix: the whole string without a comma, else what follows the last comma |
| WhatsApp.SendImagePlan | src/services/whatsapp.js:373-386 | an empty image fails first with its message; then the JID error, or the JID with the payload after the last comma and the caption |
| Discord.SplitMessage | src/services/discord.js:20-43 | the empty text gives one empty part; any other text follows the shared split specification |
| Discord.PartsWithinLimit | src/services/discord.js:20-43 | every part is within the limit, and a non-empty text gives non-empty parts |
| Discord.IsAllowedGuild | src/services/discord.js:45-49 | an empty list allows nothing; otherwise allowed exactly when the trimmed guild id is listed |
| Discord.ActorId | src/services/discord.js:60 | "dc:" followed by the guild, a colon and the channel |
| Discord.NormalizeInboundMessage | src/services/discord.js:51-70 | none exactly when the guild, channel or author is blank; otherwise the trimmed ids and the actor id built from them |
| Discord.HandleMessageCreate | src/services/discord.js:72-110 | an unadmitted message is ignored; one with text is delivered; one without text but with attachments gets the warning only in an enabled channel |
| Discord.MaxLengthOf | src/services/discord.js:193-195 | a positive configured limit is used, anything else gives 1900 |
| Discord.SentContents | src/services/discord.js:197-200 | each part is sent as is, an empty one as a single space |
| Discord.SendDiscordMessage | src/services/discord.js:184-204 | a blank channel id fails; a channel that is not text fails naming the id; otherwise the parts are sent to the trimmed id |
| Discord.SentAsSplit | src/services/discord.js:184-204 | the empty text is sent as one space; any other text exactly as split, each part within 1..limit |
| Messenger.ParseDiscordActorId | src/services/messenger.js:16-29 | anything not starting with "dc:" is none; a parsed guild and channel are trimmed, and the guild has no colon |
| Messenger.ParsedParts | src/services/messenger.js:20-25 | the guild before the first colon has none, and both trimmed parts are fixed points of trimming |
| Messenger.ParseActorIdRoundTrip | src/services/messenger.js:16-29 | parsing the actor id built from a trimmed guild and channel gives them back |
| Messenger.PayloadActorIdRoundTrip | src/services/messenger.js:16-29 | the actor id of a normalised Discord message parses back to its guild and channel |
| Messenger.RouteMessage | src/services/messenger.js:31-38 | a non-Discord id goes to WhatsApp; an unparseable Discord id fails naming it; a parsed one goes to its channel |
| Messenger.ImageFallbackText | src/services/messenger.js:42-47 | the fallback notice, followed by the caption when there is one |
| Messenger.RouteImage | src/services/messenger.js:40-50 | a non-Discord id gets the image on WhatsApp; a Discord id gets the fallback text by the message route |
| Messenger.DiscordImageIsText | src/services/messenger.js:40-50 | an image for a Discord channel arrives there as text mentioning Discord |
| Messenger.PlainIdGoesToWhatsApp | src/services/messenger.js:12-14 | an id not starting with 'd' goes to WhatsApp unchanged |
| Messenger.DiscordActorRoutesToChannel | src/services/messenger.js:31-35 | a message to a Discord actor id goes to its channel |
| Messenger.Messenger.constructor | src/services/messenger.js:56-62 | nothing has been sent |
| Messenger.Messenger.SendMessage | src/services/messenger.js:31-38 | a routing failure returns the error and sends nothing; otherwise exactly the routed delivery is appended |
| Messenger.Messenger.SendImage | src/services/messenger.js:40-50 | a routing failure returns the error and sends nothing; otherwise exactly the routed image or text is appended |
| MediaUtils.ExtFromMime | src/services/media-utils.js:3-25 | always a known extension; "bin" for a blank type; any other answer is an extension whose marker the lower-cased, trimmed type holds, and no extension checked earlier is marked; a type holding some marker never gets "bin" |
| MediaUtils.ExtOfKey | src/services/media-utils.js:5-24 | on a normalised type: the answer's marker is present and no extension checked before it has its marker present; "bin" only when no marker is present |
| MediaUtils.RankInjective | src/services/media-utils.js:5-24 | no two extensions share a place in the order of the checks |
| MediaUtils.FirstMarkedWins | src/services/media-utils.js:5-24 | a marked extension with no marked extension checked before it is the answer |
| MediaUtils.MediaTestTypes | src/services/media-utils.test.js:5-15 | image/png, image/jpeg, image/webp, "audio/ogg; codecs=opus", audio/mpeg and audio/mp4 give png, jpg, webp, ogg, mp3 and m4a, in any letter case and with surrounding blanks |
| MediaUtils.ExtFromMimeIgnoresCase | src/services/media-utils.js:4 | the extension does not depend on letter case |
| MediaUtils.VideoMp4Unreachable | src/services/media-utils.js:14-18 | as written no type ever maps to "mp4": "video/mp4" maps to "m4a" |
| MediaUtils.KeyNeverMp4 | src/services/media-utils.js:14-18 | the "mp4" branch is never taken |
| MediaUtils.ExtFromMimeIntended | src/services/media-utils.js:3-25 | the intended order, testing "video/mp4" before the audio "mp4": always a known extension, "bin" when blank, otherwise the first marked extension in that order |
| MediaUtils.IntendedExtOfKey | src/services/media-utils.js:5-24 | on a normalised type, the first extension whose marker is present in the intended order, or "bin" |
| MediaUtils.IntendedVideoMp4 | src/services/media-utils.js:18 | with the intended order "video/mp4" maps to "mp4" |
| MediaUtils.IntendedAgreesOffVideo | src/services/media-utils.js:3-25 | on every type not holding "video/mp4" the intended order agrees with the written one |
| MediaUtils.Sanitise | src/services/media-utils.js:31 | the result holds only safe characters and is no longer than the input |
| MediaUtils.SanitiseKeepsSafe | src/services/media-utils.js:31 | a safe name is unchanged |
| MediaUtils.FallbackName | src/services/media-utils.js:29 | the fallback is never empty ("original" when blank) |
| MediaUtils.SafeFileName | src/services/media-utils.js:27-32 | a blank name gives the fallback; otherwise the fallback or a safe name of 1..120 characters |
| MediaUtils.SafeFileNameKeepsSafe | src/services/media-utils.js:27-32 | a trimmed safe name of at most 120 characters is kept as is |
| MediaUtils.MediaParts | src/services/media-utils.js:34-44 | the header first, the instruction last, and one tagged part for each present field |
| MediaUtils.TaggedPartContained | src/services/media-utils.js:44 | a value in a tagged part appears in the joined message |
| MediaUtils.CanonicalMediaMessageShape | src/services/media-utils.js:34-45 | the message starts with the header, ends with the instruction, and contains every present field |

## Left out

- Subprocesses: spawning, line streaming, kill timers, and the scheduler,
  report and clean-up intervals are not modelled. Child events are method
  calls and the clock is a `now` parameter. `cancelTask`'s SIGKILL after
  5000 ms is recorded as a signal, not a timer.
- Network and model calls are not modelled: OpenRouter, the gemini-cli
  planner process, vision, transcription and the desktop agent's `main` loop.
  Provider replies are inputs.
- Chat client lifecycles are not modelled: the WhatsApp socket, its
  reconnect timer and media download (`getMediaMeta`, `downloadMedia`), and
  the Discord client's login and channel fetch. Baileys' content-type
  extraction is an input.
- Persistence is abstracted:
  - SQLite and its migrations become in-memory tables;
  - projects.json is a sequence held by the manager;
  - the `.env` file is a text passed in and returned;
  - artifact writes and the summary files the close handler reads are
    inputs (`CloseInputs`).
- The execution-item queue, token sums, usage-event inserts and Discord
  channel CRUD are called by the core but not defined in
  src/services/task-store.js. They are modelled only as their call sites
  use them: a popped item, a recorded usage event, a set of enabled
  channels.
- The close handler's failure extras are not modelled: the evidence images,
  the failure screenshot, and the "last log" line (`readLastNonEmptyLine`,
  `extractLastJsonlEventSummary`, `isLikelyPng`). They only add to a chat
  message, and the last one needs `JSON.stringify`.
- `cleanupArtifacts` is not modelled. It is a file-system mtime scan.
- `handleCommand` (the slash commands), `handleInboundMedia` and
  `resolveTaskForInboundMedia` are not modelled. They are chat I/O around
  store calls. `createProject` and `registerDevFolder` are not modelled
  either: they run git and create folders. `normalizeWhatsAppPayload` is
  not modelled because it reads the webhook's untyped JSON.
- PlanSchema.ParsePlan: the schema's fields, defaults and constraints are
  modelled. Its failure texts ("Invalid plan: ...") are the model's own,
  where zod throws a `ZodError` whose message lists the issues. Zod's
  coercion of numeric and boolean strings is not modelled.
- PlannerJson.ParseFirstJsonObject: `JSON.parse` is a parameter. A slice it
  refuses gives "Planner output is not valid JSON", where the program passes
  on V8's `SyntaxError` text. Both texts reach the user after
  "Planner failed: ", so the wording of that message differs from the
  program's.
- InboundRouting.RouteToTask: models `routeToTask` up to the planner
  (src/services/inbound-core.js:1236-1279): the focus, the stored message,
  the queued outcome and the orchestration request. What follows is not
  modelled:
  - the queue item `enqueueExecutionItem` adds when a run is active (only
    the AddedToQueue outcome records it);
  - the fallback plan and its warning when the planner throws;
  - the fallback and cooldown notices;
  - the reply, set_project, set_runner, set_orchestrator, set_task_policy,
    memory_* and project_* action handlers;
  - the run prompt with the `[MEMORIA COMPARTILHADA]` header;
  - the title update;
  - the `enqueueTaskRun` call (Executor.EnqueueTaskRun models that method
    itself).
- Runners.IsSupported: the registry file exports only `getRunner`, so
  `isRunnerKindSupported` and `listSupportedRunnerKinds` have no source
  here (see Findings). The model assumes "supported" means "getRunner
  finds an adapter". Runners.IsKindSupported and
  Runners.ListSupportedRunnerKinds add `{ includeAuto: true }`, which also
  accepts "auto". The order of the listed names is assumed, and
  only membership is stated. The callers that pass `includeAuto` (the
  slash commands and the set_runner action) are not modelled.
- Floating point is not modelled:
  - `splitAt < maxLength * 0.3` is written `10 * splitAt < 3 * maxLength`;
  - the OCR confidence is an `Option<real>` read by a decimal-prefix
    reader (see DesktopAgentRun.ParseFloatPrefix below), not an IEEE double;
  - the click centre's `Math.round` is not modelled;
  - the expiry check's `Number.isFinite` on a parsed date is an integer
    comparison.
- Concurrency is not modelled: each handler invocation is one atomic step.
- Portuguese message wording is kept only where a contract mentions it.
- Strings.Lower, Strings.Upper: letter case is mapped for ASCII, Latin-1 and
  the Kelvin and Ångström signs only. Other case mappings of
  `toLowerCase`/`toUpperCase` (Greek, Cyrillic, Latin Extended, the special
  and multi-character cases) are not modelled.
- Lengths and slices count Unicode code points, where JavaScript counts
  UTF-16 code units. A character outside the Basic Multilingual Plane
  counts 1 here and 2 there. This shifts every cap:
  - TextUtils.Truncate;
  - MessageSplit.SplitMessage's limit;
  - MediaUtils.SafeFileName's 120;
  - TokenMeter.CharsToTokens;
  - the Prefix caps of 80, 120, 160 and 500 characters.
- InitProjects.UpsertEnvVar: writes `key=value` literally. JavaScript's
  `String.prototype.replace` would expand `$&`, `$$`, `` $` `` and `$'`
  inside the value. UpsertThenRead and WithPhoneReadsBack therefore hold of
  the program only for values without '$'.
- DesktopAgentRun.ParseFloatPrefix: reads a decimal prefix without an
  exponent. `parseFloat("9.5e1")` is 95 in JavaScript and 9.5 here.
- Json: a JSON number is an integer (the `JNum` case of the `Json` value).
  Fractions and exponents are not represented. Json.TextOf, which stands for
  `String(v || '')`, renders a string as itself, a non-zero number in
  decimal and everything else as "": `true`, an array or an object would be
  "true", a comma-joined list or "[object Object]" in JavaScript.
- Json.ToNumber: stands for `Number(v)`, and reads a string as a number
  only when its trimmed form is all decimal digits. A sign, a fraction, an
  exponent or a hex prefix ("-5", "+5", "1.5", "1e3", "0x10") gives
  NotFinite here, where JavaScript gives a finite value. The same holds for
  such a string inside a one-item array (`Number(["-5"])`). A one-item array
  otherwise reads as its item, as `Number([5])` is 5.
- Random ids (src/utils/ids.js) and the Express routes are not modelled:
  ids are parameters, and the routes only forward to the inbound core.

## Findings

| source | as written | input that shows it | evidently intended | confidence | as-written member | corrected member |
|---|---|---|---|---|---|---|
| src/services/project-manager.js:43-46 | the containment check tests `full.startsWith(devRoot + sep)`, which for the root "/" asks for a "//" prefix | development root "/" with relative path "a": "/a" is refused as outside the root | a root of "/" accepts every non-climbing relative path | not executed | Paths.RootDirRefusesSubfolders | Paths.FixedStaysUnderRoot |
| src/services/media-utils.js:14-18 | `m.includes('mp4')` returns 'm4a' before `m.includes('video/mp4')` is reached, so the 'mp4' branch is dead | "video/mp4" gives "m4a" | "video/mp4" gives "mp4"; audio mp4 still gives "m4a" | not executed | MediaUtils.VideoMp4Unreachable | MediaUtils.IntendedVideoMp4 |
| src/services/orchestrator.js:8 | orchestrator.js and inbound-core.js (line 25) import `isRunnerKindSupported` and `listSupportedRunnerKinds` from src/runners/index.js, which exports only `getRunner` | loading either module: an ES module import of a name the target does not export fails at link time | the registry exports both helpers, with "supported" meaning a registered kind and `includeAuto` also accepting "auto" | not executed; src/runners/index.js as it stands | Runners.SupportCheckNotExported | Runners.SupportedWithAuto |
| src/services/orchestrator.js:64-72 | the greeting list holds "olÃ¡", mis-encoded "olá", and it is compared with a lower-cased text, which can never contain 'Ã' | "olá" goes to the planner instead of getting the local greeting | "olá" is answered locally like "ola" | not executed | Orchestrator.AccentedGreetingMissedAsWritten | Orchestrator.IntendedGreetingsAnswered |

The greeting test the orchestrator runs (Orchestrator.ShouldReplyAsGreeting)
keeps the list as the source holds it, so the model answers "olá" the way
the program does; Orchestrator.ShouldReplyAsGreetingIntended is the
corrected test.
