/** The planning orchestrator (src/services/orchestrator.js): the greeting
    shortcut, the per-call token budget, context compaction, the choice and
    order of the two planner providers with a circuit breaker in front of
    gemini-cli, and the attempt loop that turns the first usable reply into a
    validated plan. The provider calls themselves are not modelled: their
    replies are a parameter, as is the clock. */
module Orchestrator {
  import opened Wrappers
  import opened Strings
  import opened Json
  import opened TokenMeter
  import opened PlanSchema
  import opened PlannerJson
  import opened PlannerPrompt
  import Runners

  // ---------------------------------------------------------------------
  // Failure classification

  datatype FailureKind = Capacity | Quota

  datatype Classified = Classified(kind: FailureKind, cooldownMs: nat)

  const CapacityCooldownMs: nat := 10 * 60 * 1000
  const QuotaCooldownMs: nat := 60 * 60 * 1000

  const CapacityPatterns: seq<string> :=
    ["no capacity available", "resource_exhausted", "ratelimitexceeded", "rate limit", "http 429", "status 429"]

  const QuotaPatterns: seq<string> :=
    ["you've hit your usage limit", "usage limit", "quota", "insufficient_quota"]

  /** A (lower-cased) error message that reports a capacity or rate limit. */
  predicate CapacityMessage(m: string)
  {
    AnyContained(m, CapacityPatterns) || (Contains(m, "exited with code") && Contains(m, "429"))
  }

  /** A (lower-cased) error message that reports an exhausted quota. */
  predicate QuotaMessage(m: string) { AnyContained(m, QuotaPatterns) }

  function CooldownMs(kind: FailureKind): nat
  {
    if kind == Capacity then CapacityCooldownMs else QuotaCooldownMs
  }

  /** `classifyGeminiFailure`: capacity patterns are checked before quota
      patterns, on the lower-cased message. */
  function ClassifyGeminiFailure(message: string): (r: Option<Classified>)
    ensures r.Some? ==> r.value.cooldownMs == CooldownMs(r.value.kind)
    ensures (r.Some? && r.value.kind == Capacity) <==> CapacityMessage(Lower(message))
    ensures (r.Some? && r.value.kind == Quota) <==> !CapacityMessage(Lower(message)) && QuotaMessage(Lower(message))
  {
    var m := Lower(message);
    if CapacityMessage(m) then Some(Classified(Capacity, CapacityCooldownMs))
    else if QuotaMessage(m) then Some(Classified(Quota, QuotaCooldownMs))
    else None
  }

  /** The classification does not depend on letter case. */
  lemma ClassifyIgnoresCase(message: string)
    ensures ClassifyGeminiFailure(Lower(message)) == ClassifyGeminiFailure(message)
  {
    LowerIdempotent(message);
  }

  // ---------------------------------------------------------------------
  // Provider preference and runner default

  /** `normalizeProvider`: one of the three provider names after trimming and
      lower-casing, else nothing. */
  function NormalizeProvider(value: string): (r: Option<Provider>)
    ensures r.Some? <==> Lower(Trim(value)) in {"openrouter", "gemini-cli", "auto"}
    ensures r.Some? ==> ProviderName(r.value) == Lower(Trim(value))
  {
    ParseProvider(Lower(Trim(value)))
  }

  /** Every provider's own name normalises to that provider. */
  lemma NormalizeProviderName(p: Provider)
    ensures NormalizeProvider(ProviderName(p)) == Some(p)
  {
    var n := ProviderName(p);
    CanonicalWord(n);
  }

  /** A word with visible ends and no upper-case letter survives trimming and
      lower-casing unchanged. */
  lemma CanonicalWord(w: string)
    requires w != [] && !IsSpace(w[0]) && !IsSpace(w[|w| - 1])
    requires LowerCased(w)
    ensures Lower(Trim(w)) == w
  {
    TrimVisibleEnds(w);
    LowerOfLowercase(w);
  }

  /** The effective provider preference: the user's override, else the stored
      default, else the configured one, else 'gemini-cli'. */
  function PreferredProvider(userOverride: string, settingDefault: string, configDefault: string): (p: Provider)
    ensures NormalizeProvider(userOverride).Some? ==> p == NormalizeProvider(userOverride).value
    ensures NormalizeProvider(userOverride).None? && NormalizeProvider(settingDefault).Some?
            ==> p == NormalizeProvider(settingDefault).value
    ensures NormalizeProvider(userOverride).None? && NormalizeProvider(settingDefault).None?
            ==> p == NormalizeProvider(configDefault).GetOr(GeminiCli)
  {
    var u := NormalizeProvider(userOverride);
    if u.Some? then u.value
    else
      var d := NormalizeProvider(settingDefault);
      if d.Some? then d.value else NormalizeProvider(configDefault).GetOr(GeminiCli)
  }

  /** The global runner default: the stored setting, else the configured one,
      else 'codex-cli', lower-cased. Empty strings stand for unset values. */
  function GlobalRunnerDefault(setting: string, configured: string): (k: string)
    ensures k != []
  {
    Lower(if setting != "" then setting else if configured != "" then configured else "codex-cli")
  }

  /** The runner kind a 'run' plan falls back to: the preferred kind unless it
      is unset or 'auto', else the global default; anything unsupported
      becomes 'codex-cli'. */
  function DefaultRunnerKind(preferred: string, globalDefault: string): (k: string)
    ensures Runners.IsSupported(k) && k != "auto" && k != []
    ensures k == "codex-cli" || k == Lower(preferred) || k == Lower(globalDefault)
    ensures preferred != "" && preferred != "auto" && Runners.IsSupported(Lower(preferred)) ==> k == Lower(preferred)
    ensures (preferred == "" || preferred == "auto") && globalDefault != "auto" && Runners.IsSupported(Lower(globalDefault))
            ==> k == Lower(globalDefault)
  {
    var v := if preferred != "" && preferred != "auto" then preferred else globalDefault;
    if v == "" || v == "auto" then "codex-cli"
    else if Runners.IsSupported(Lower(v)) then Lower(v)
    else "codex-cli"
  }

  // ---------------------------------------------------------------------
  // Greeting shortcut

  /** The greeting list as the source file holds it: its third entry is the
      UTF-8 encoding of "olá" read back as Latin-1 text. */
  const Greetings: seq<string> :=
    ["oi", "ola", "ol\U{C3}\U{A1}", "bom dia", "boa tarde", "boa noite", "hello", "hi", "hey"]

  /** The same list with the accented greeting spelled as evidently intended. */
  const GreetingsIntended: seq<string> :=
    ["oi", "ola", "ol\U{E1}", "bom dia", "boa tarde", "boa noite", "hello", "hi", "hey"]

  /** `shouldReplyAsGreeting`: a blank message or exactly one listed greeting,
      ignoring surrounding blanks and letter case; a message longer than the
      longest greeting always goes to the planner. */
  function ShouldReplyAsGreeting(text: string): (r: bool)
    ensures IsBlank(text) ==> r
    ensures !IsBlank(text) && Lower(Trim(text)) !in Greetings ==> !r
    ensures r ==> |Trim(text)| <= 9
  {
    var t := Lower(Trim(text));
    GreetingsShort(t);
    t == [] || t in Greetings
  }

  /** The greeting test over the intended list. */
  function ShouldReplyAsGreetingIntended(text: string): (r: bool)
    ensures IsBlank(text) ==> r
    ensures !IsBlank(text) && Lower(Trim(text)) !in GreetingsIntended ==> !r
  {
    var t := Lower(Trim(text));
    t == [] || t in GreetingsIntended
  }

  /** No listed greeting is longer than nine characters. */
  lemma GreetingsShort(t: string)
    ensures t in Greetings ==> |t| <= 9
  {
    assert forall i :: 0 <= i < |Greetings| ==> |Greetings[i]| <= 9;
  }

  /** As written, the accented greeting can never match: lower-casing turns
      its capital A with tilde into a small one. */
  lemma AccentedGreetingUnreachable(text: string)
    ensures Lower(Trim(text)) != Greetings[2]
  {
    var w := Greetings[2];
    assert |w| == 4 && IsUpperLetter(w[2]);
    var t := Lower(Trim(text));
    if |t| == 4 {
      assert !IsUpperLetter(t[2]);
    }
  }

  /** So, as written, a user's "olá" goes to the planner, while the intended
      list answers it locally. */
  lemma AccentedGreetingMissedAsWritten()
    ensures !ShouldReplyAsGreeting("ol\U{E1}")
    ensures ShouldReplyAsGreetingIntended("ol\U{E1}")
  {
    var g := "ol\U{E1}";
    assert g !in Greetings && g == GreetingsIntended[2] by {
      assert Greetings[1][2] != g[2] && Greetings[8][0] != g[0];
    }
    assert Lower(Trim(g)) == g by {
      CanonicalWord(g);
    }
  }

  /** Surrounding blanks never change the decision. */
  lemma GreetingIgnoresSurroundingSpace(text: string)
    ensures ShouldReplyAsGreeting(Trim(text)) == ShouldReplyAsGreeting(text)
  {
    TrimIdempotent(text);
  }

  /** Each listed greeting but the mis-encoded one is answered locally, as
      listed and in capitals. */
  lemma GreetingsAnswered(i: nat)
    requires i < |Greetings| && i != 2
    ensures ShouldReplyAsGreeting(Greetings[i])
    ensures ShouldReplyAsGreeting(Upper(Greetings[i]))
  {
    var g := Greetings[i];
    CanonicalWord(g);
    LowerUpper(g);
    TrimVisibleEnds(Upper(g));
  }

  /** With the intended list, every greeting is answered locally, as listed
      and in capitals. */
  lemma IntendedGreetingsAnswered(i: nat)
    requires i < |GreetingsIntended|
    ensures ShouldReplyAsGreetingIntended(GreetingsIntended[i])
    ensures ShouldReplyAsGreetingIntended(Upper(GreetingsIntended[i]))
  {
    var g := GreetingsIntended[i];
    CanonicalWord(g);
    LowerUpper(g);
    TrimVisibleEnds(Upper(g));
  }

  /** The text of the local greeting reply: it names the task's project,
      then lists the useful commands and gives examples in natural
      language. */
  function GreetingReply(projectId: string): string
  {
    "Oi! Me diga o que voce quer fazer no projeto *" + projectId + "*.\n\n" + GreetingHelp
  }

  const GreetingHelp: string :=
    "Comandos uteis:\n/help\n/status\n/projects\n/project <id>\n/runner <kind>\n/orchestrator <provider>\n\nTambem pode falar em linguagem natural, ex.:\n- \"troca pro projeto argo\"\n- \"usa runner claude nesta task\"\n- \"muda orchestrator para openrouter\""

  // ---------------------------------------------------------------------
  // Budgets

  datatype Budget = Budget(callBudget: nat, taskTotal: nat, remaining: nat, before: nat)

  /** The per-call budget, the task budget, what remains of it after `spent`
      tokens, and the budget this planner call may use. Settings equal to 0
      stand for unset ones. */
  function PlannerBudget(perCallSetting: int, taskTotalSetting: int, spent: nat): (b: Budget)
    ensures b.callBudget >= 1 && b.callBudget == AtLeastOr(perCallSetting, 12000, 1)
    ensures b.taskTotal >= b.callBudget && b.taskTotal == AtLeastOr(taskTotalSetting, 120000, b.callBudget)
    ensures b.remaining == if b.taskTotal > spent then b.taskTotal - spent else 0
    ensures 1 <= b.before <= b.callBudget
    ensures b.remaining == 0 ==> b.before == b.callBudget
    ensures b.remaining > 0 ==> b.before == if b.remaining < b.callBudget then b.remaining else b.callBudget
  {
    var call := AtLeastOr(perCallSetting, 12000, 1);
    var total := AtLeastOr(taskTotalSetting, 120000, call);
    var remaining := if total > spent then total - spent else 0;
    var wanted := if remaining != 0 then remaining else call;
    Budget(call, total, remaining, if call < wanted then call else wanted)
  }

  /** What remains of the task budget after a call that used `used` tokens. */
  function BudgetAfter(remaining: nat, used: nat): (r: nat)
    ensures r <= remaining
    ensures used <= remaining ==> r + used == remaining
    ensures used > remaining ==> r == 0
  {
    if remaining > used then remaining - used else 0
  }

  // ---------------------------------------------------------------------
  // Prompt preparation and compaction

  /** Everything `orchestrateTaskMessage` reads from the store, the settings,
      the configuration and the project registry. Empty strings and zero
      numbers stand for unset values. */
  datatype PlannerRequest = PlannerRequest(
    template: PromptTemplate,
    userMessage: string,
    taskId: string,
    projectId: string,
    preferredRunnerKind: string,
    runnerDefaultSetting: string,
    runnerDefaultConfig: string,
    providerOverride: string,
    providerDefaultSetting: string,
    providerDefaultConfig: string,
    spentTokens: nat,
    perCallBudget: int,
    taskTotalBudget: int,
    sharedMemoryMax: int,
    maxContextMessages: int,
    contextMessages: seq<Message>,
    sharedMemory: string,
    projects: seq<ProjectEntry>)

  function AsContext(ms: seq<Message>): (r: seq<ContextMessage>)
    ensures |r| == |ms|
    ensures forall i :: 0 <= i < |ms| ==> r[i] == ContextMessage(ms[i].role, ms[i].content)
  {
    seq(|ms|, i requires 0 <= i < |ms| => ContextMessage(ms[i].role, ms[i].content))
  }

  /** `buildPlannerPromptPayload` for the given context and memory. */
  function Messages(req: PlannerRequest, context: seq<Message>, memory: string, runnerKind: string): PlannerMessages
  {
    BuildPlannerMessages(req.template, req.userMessage, Some(AsContext(context)), req.taskId, req.projectId,
                         None, runnerKind, Some(req.projects), Some(memory))
  }

  /** The single prompt text sent to gemini-cli and used for estimates. */
  function PromptText(m: PlannerMessages): string { m.system + "\n\n" + m.user }

  datatype Prepared = Prepared(
    budget: Budget, runnerKind: string, context: seq<Message>, memory: string,
    compaction: Option<CompactionMeta>, messages: PlannerMessages)

  function RequestBudget(req: PlannerRequest): Budget
  {
    PlannerBudget(req.perCallBudget, req.taskTotalBudget, req.spentTokens)
  }

  function RequestRunnerKind(req: PlannerRequest): string
  {
    DefaultRunnerKind(req.preferredRunnerKind, GlobalRunnerDefault(req.runnerDefaultSetting, req.runnerDefaultConfig))
  }

  /** The prompt the providers see: compacted only when the first estimate
      exceeds the call budget, otherwise built from the context and memory as
      they are. */
  function Prepare(req: PlannerRequest): (p: Prepared)
    ensures p.budget == RequestBudget(req) && p.runnerKind == RequestRunnerKind(req)
    ensures var first := Messages(req, req.contextMessages, req.sharedMemory, p.runnerKind);
      (p.compaction.Some? <==> EstimateTokensFromText(PromptText(first)) > p.budget.before)
      && (p.compaction.None? ==> p.context == req.contextMessages && p.memory == req.sharedMemory && p.messages == first)
    ensures p.compaction.Some? ==>
      var c := CompactPlannerPayload(req.contextMessages, req.sharedMemory, req.maxContextMessages,
                                     p.budget.before, req.sharedMemoryMax);
      p.context == c.contextMessages && p.memory == c.sharedMemory && p.compaction == Some(c.meta)
      && p.messages == Messages(req, p.context, p.memory, p.runnerKind)
  {
    var budget := RequestBudget(req);
    var kind := RequestRunnerKind(req);
    var first := Messages(req, req.contextMessages, req.sharedMemory, kind);
    if EstimateTokensFromText(PromptText(first)) > budget.before then
      var c := CompactPlannerPayload(req.contextMessages, req.sharedMemory, req.maxContextMessages,
                                     budget.before, req.sharedMemoryMax);
      Prepared(budget, kind, c.contextMessages, c.sharedMemory, Some(c.meta),
               Messages(req, c.contextMessages, c.sharedMemory, kind))
    else Prepared(budget, kind, req.contextMessages, req.sharedMemory, None, first)
  }

  // ---------------------------------------------------------------------
  // Provider order and the circuit breaker

  /** gemini-cli is skipped while its breaker is open. */
  predicate InCooldown(pref: Provider, untilMs: nat, now: nat)
  {
    pref != OpenRouter && untilMs != 0 && now < untilMs
  }

  /** The providers to try, in order. */
  function ProvidersToTry(pref: Provider, untilMs: nat, now: nat): (order: seq<Provider>)
    ensures order == [OpenRouter] <==> pref == OpenRouter || InCooldown(pref, untilMs, now)
    ensures order != [OpenRouter] ==> order == [GeminiCli, OpenRouter]
  {
    if pref == OpenRouter || InCooldown(pref, untilMs, now) then [OpenRouter] else [GeminiCli, OpenRouter]
  }

  /** openrouter is always tried, last; 'auto' is never tried; gemini-cli is
      tried first exactly when it is preferred or allowed and its breaker is
      closed at `now`. */
  lemma ProviderOrderShape(pref: Provider, untilMs: nat, now: nat)
    ensures var order := ProvidersToTry(pref, untilMs, now);
      1 <= |order| <= 2 && order[|order| - 1] == OpenRouter && Auto !in order
      && (GeminiCli in order <==> pref != OpenRouter && (untilMs == 0 || now >= untilMs))
      && (GeminiCli in order ==> order[0] == GeminiCli)
  {
  }

  /** The module-level `geminiCircuit` record. */
  datatype CircuitState = CircuitState(untilMs: nat, reason: Option<FailureKind>, lastError: Option<string>)

  const ClosedCircuit: CircuitState := CircuitState(0, None, None)

  /** The breaker after `provider` failed with `error` at `now`: only a
      gemini-cli failure with a classified message opens it. */
  function AfterFailure(s: CircuitState, provider: Provider, error: string, now: nat): (t: CircuitState)
    ensures provider != GeminiCli || ClassifyGeminiFailure(error).None? ==> t == s
    ensures provider == GeminiCli && ClassifyGeminiFailure(error).Some? ==>
              t.untilMs == now + ClassifyGeminiFailure(error).value.cooldownMs
              && t.reason == Some(ClassifyGeminiFailure(error).value.kind)
              && t.lastError == Some(error)
  {
    var cls := ClassifyGeminiFailure(error);
    if provider == GeminiCli && cls.Some? then CircuitState(now + cls.value.cooldownMs, Some(cls.value.kind), Some(error))
    else s
  }

  /** Once a classified gemini-cli failure opens the breaker, every later call
      within the cooldown tries openrouter only. */
  lemma OpenBreakerSkipsGemini(s: CircuitState, error: string, failedAt: nat, pref: Provider, now: nat)
    requires ClassifyGeminiFailure(error).Some?
    requires failedAt <= now < failedAt + CapacityCooldownMs
    ensures ProvidersToTry(pref, AfterFailure(s, GeminiCli, error, failedAt).untilMs, now) == [OpenRouter]
  {
    var t := AfterFailure(s, GeminiCli, error, failedAt);
    assert t.untilMs >= failedAt + CapacityCooldownMs > now;
  }

  // ---------------------------------------------------------------------
  // One attempt

  /** What a provider call produced: a reply (its text, which may not be a
      string, its model and its raw usage record) or a thrown error. */
  datatype ProviderReply =
    | Replied(assistantText: Option<string>, model: Option<string>, usage: Option<Json>)
    | Threw(error: string)

  datatype Attempted = Attempted(plan: Plan, usage: Usage)

  /** A 'run' plan without a runner kind receives the default one. */
  function WithDefaultRunner(p: Plan, runnerKind: string): (q: Plan)
    ensures p.action == Run && (p.runnerKind.None? || p.runnerKind.value == []) ==> q == p.(runnerKind := Some(runnerKind))
    ensures !(p.action == Run && (p.runnerKind.None? || p.runnerKind.value == [])) ==> q == p
  {
    if p.action == Run && (p.runnerKind.None? || p.runnerKind.value == []) then p.(runnerKind := Some(runnerKind)) else p
  }

  /** The provider-reported usage, normalised. */
  function ReportedUsage(raw: Option<Json>): Option<Usage>
  {
    if raw.Some? then NormalizeTokenUsage(raw.value, "provider") else None
  }

  /** The body of one loop iteration up to the bookkeeping: extract, validate
      and complete the plan, and choose the usage record. A Failure carries
      the message of the error the iteration throws. */
  function AttemptPlan(reply: ProviderReply, parse: string -> Option<Json>, runnerKind: string, promptText: string)
    : (r: Result<Attempted, string>)
    ensures reply.Threw? ==> r == Failure(reply.error)
    ensures r.Success? <==> reply.Replied? && ParseFirstJsonObject(reply.assistantText, parse).Success?
                            && ValidatePlan(ParseFirstJsonObject(reply.assistantText, parse).value).Success?
    ensures r.Success? ==>
              r.value.plan == WithDefaultRunner(ValidatePlan(ParseFirstJsonObject(reply.assistantText, parse).value).value,
                                                runnerKind)
    ensures r.Success? && ReportedUsage(reply.usage).Some? ==> r.value.usage == ReportedUsage(reply.usage).value
    ensures r.Success? && ReportedUsage(reply.usage).None? ==>
              r.value.usage == EstimateUsage(promptText, reply.assistantText.value)
    ensures r.Success? && r.value.plan.action == Run && runnerKind != [] ==>
              r.value.plan.runnerKind.Some? && r.value.plan.runnerKind.value != []
              && r.value.plan.prompt.Some? && !AllSpace(r.value.plan.prompt.value)
  {
    match reply
    case Threw(e) => Failure(e)
    case Replied(text, _, usage) =>
      var raw := ParseFirstJsonObject(text, parse);
      if raw.Failure? then Failure(raw.error)
      else
        var validated := ValidatePlan(raw.value);
        if validated.Failure? then Failure(validated.error)
        else
          ValidRunPlans(raw.value);
          var reported := ReportedUsage(usage);
          Success(Attempted(WithDefaultRunner(validated.value, runnerKind),
                            if reported.Some? then reported.value else EstimateUsage(promptText, text.value)))
  }

  // ---------------------------------------------------------------------
  // The attempt loop

  datatype ProviderError = ProviderError(provider: Provider, error: string)

  /** The breaker as reported with a fallback answer. */
  datatype SkipInfo = SkipInfo(untilMs: nat, reason: Option<FailureKind>)

  datatype Outcome =
    | Planned(plan: Plan, providerUsed: string, usedFallback: bool, previousErrors: seq<ProviderError>,
              usage: Usage, budgetBefore: nat, budgetAfter: nat, compacted: bool, circuitBreaker: Option<SkipInfo>)
    | PlannerFailed(message: string)

  /** The outcome of trying each provider of `order`. */
  function Attempts(order: seq<Provider>, replies: Provider -> ProviderReply, parse: string -> Option<Json>,
                    runnerKind: string, promptText: string): (outs: seq<Result<Attempted, string>>)
    ensures |outs| == |order|
    ensures forall i :: 0 <= i < |order| ==> outs[i] == AttemptPlan(replies(order[i]), parse, runnerKind, promptText)
  {
    seq(|order|, i requires 0 <= i < |order| => AttemptPlan(replies(order[i]), parse, runnerKind, promptText))
  }

  /** The index of the first successful attempt. */
  function FirstSuccess(outs: seq<Result<Attempted, string>>): (k: Option<nat>)
    ensures k.Some? ==> k.value < |outs| && outs[k.value].Success? && forall j :: 0 <= j < k.value ==> outs[j].Failure?
    ensures k.None? <==> forall j :: 0 <= j < |outs| ==> outs[j].Failure?
  {
    if outs == [] then None
    else if outs[0].Success? then Some(0)
    else
      var k := FirstSuccess(outs[1..]);
      if k.Some? then Some(k.value + 1) else None
  }

  /** A success right after a run of failures is the first success. */
  lemma FirstSuccessAt(outs: seq<Result<Attempted, string>>, i: nat)
    requires i < |outs| && outs[i].Success? && forall j :: 0 <= j < i ==> outs[j].Failure?
    ensures FirstSuccess(outs) == Some(i)
  {
  }

  lemma FailuresExtend(outs: seq<Result<Attempted, string>>, i: nat)
    requires i < |outs| && outs[i].Failure? && forall j :: 0 <= j < i ==> outs[j].Failure?
    ensures forall j :: 0 <= j < i + 1 ==> outs[j].Failure?
  {
  }

  lemma FirstSuccessNone(outs: seq<Result<Attempted, string>>)
    requires forall j :: 0 <= j < |outs| ==> outs[j].Failure?
    ensures FirstSuccess(outs).None?
  {
  }

  function ErrorOf(r: Result<Attempted, string>): string
  {
    if r.Failure? then r.error else ""
  }

  /** The `errors` list after the first `n` attempts failed. */
  function ErrorsOf(order: seq<Provider>, outs: seq<Result<Attempted, string>>, n: nat): (errs: seq<ProviderError>)
    requires n <= |order| && n <= |outs|
    ensures |errs| == n
    ensures forall j :: 0 <= j < n ==> errs[j] == ProviderError(order[j], ErrorOf(outs[j]))
  {
    if n == 0 then [] else ErrorsOf(order, outs, n - 1) + [ProviderError(order[n - 1], ErrorOf(outs[n - 1]))]
  }

  /** The breaker after the first `n` attempts failed. */
  function CircuitAfter(s: CircuitState, order: seq<Provider>, outs: seq<Result<Attempted, string>>,
                        now: nat, n: nat): CircuitState
    requires n <= |order| && n <= |outs|
  {
    if n == 0 then s else AfterFailure(CircuitAfter(s, order, outs, now, n - 1), order[n - 1], ErrorOf(outs[n - 1]), now)
  }

  /** The breaker only changes through a gemini-cli attempt whose error is
      classified, and then it records that error. */
  lemma {:induction false} CircuitAfterChanges(s: CircuitState, order: seq<Provider>,
                                               outs: seq<Result<Attempted, string>>, now: nat, n: nat)
    requires n <= |order| && n <= |outs|
    ensures CircuitAfter(s, order, outs, now, n) != s ==>
              exists j :: 0 <= j < n && order[j] == GeminiCli && ClassifyGeminiFailure(ErrorOf(outs[j])).Some?
                          && CircuitAfter(s, order, outs, now, n).lastError == Some(ErrorOf(outs[j]))
  {
    if n > 0 {
      CircuitAfterChanges(s, order, outs, now, n - 1);
    }
  }

  function ErrorLines(errs: seq<ProviderError>): (lines: seq<string>)
    ensures |lines| == |errs|
    ensures forall i :: 0 <= i < |errs| ==> lines[i] == ProviderName(errs[i].provider) + ": " + errs[i].error
  {
    seq(|errs|, i requires 0 <= i < |errs| => ProviderName(errs[i].provider) + ": " + errs[i].error)
  }

  /** The error thrown when every provider failed. */
  function FailureMessage(errs: seq<ProviderError>): (m: string)
    ensures StartsWith(m, "Planner failed: ")
    ensures EndsWith(m, Join(ErrorLines(errs), " | "))
  {
    ConcatParts("Planner failed: ", Join(ErrorLines(errs), " | "), "");
    "Planner failed: " + Join(ErrorLines(errs), " | ")
  }

  /** The local answer to a greeting. */
  function GreetingOutcome(projectId: string): (o: Outcome)
    ensures o.Planned? && o.providerUsed == "local-heuristic" && o.plan.action == Reply && !o.usedFallback
    ensures o.usage == Usage(0, 0, 0, Estimated)
  {
    Planned(Plan(1, Reply, Some(GreetingReply(projectId)), None, None, None, None, None, None, None, None, None,
                 None, None, None, None, None, None, None, None),
            "local-heuristic", false, [], Usage(0, 0, 0, Estimated), 0, 0, false, None)
  }

  datatype Orchestration = Orchestration(outcome: Outcome, circuit: CircuitState)

  /** The provider order never names a provider twice. */
  predicate DistinctOrder(order: seq<Provider>)
  {
    |order| >= 1 && forall j :: 0 < j < |order| ==> order[j] != order[0]
  }

  /** The answer built from the `k`-th attempt, the first that succeeded. */
  function SuccessOutcome(p: Prepared, order: seq<Provider>, k: nat, a: Attempted, errors: seq<ProviderError>,
                          skipping: bool, c: CircuitState): Outcome
    requires k < |order|
  {
    Planned(a.plan, ProviderName(order[k]), order[k] != order[0], if order[k] != order[0] then errors else [],
            a.usage, p.budget.before, BudgetAfter(p.budget.remaining, a.usage.totalTokens), p.compaction.Some?,
            if order[k] == OpenRouter && skipping then Some(SkipInfo(c.untilMs, c.reason)) else None)
  }

  /** The attempt loop over `order`, whose attempts came out as `outs`, from
      breaker state `s`; `skipping` says the breaker kept gemini-cli out. */
  function AttemptLoop(s: CircuitState, p: Prepared, order: seq<Provider>, outs: seq<Result<Attempted, string>>,
                       skipping: bool, now: nat): (o: Orchestration)
    requires |outs| == |order| >= 1
  {
    var k := FirstSuccess(outs);
    if k.Some? then
      var c := CircuitAfter(s, order, outs, now, k.value);
      Orchestration(SuccessOutcome(p, order, k.value, outs[k.value].value, ErrorsOf(order, outs, k.value), skipping, c), c)
    else
      Orchestration(PlannerFailed(FailureMessage(ErrorsOf(order, outs, |order|))), CircuitAfter(s, order, outs, now, |order|))
  }

  /** The loop's result when the attempt at `k` is the first success. */
  lemma AttemptLoopAt(s: CircuitState, p: Prepared, order: seq<Provider>, outs: seq<Result<Attempted, string>>,
                      skipping: bool, now: nat, k: nat)
    requires |outs| == |order| >= 1 && FirstSuccess(outs) == Some(k)
    ensures var c := CircuitAfter(s, order, outs, now, k);
            AttemptLoop(s, p, order, outs, skipping, now)
            == Orchestration(SuccessOutcome(p, order, k, outs[k].value, ErrorsOf(order, outs, k), skipping, c), c)
  {
  }

  /** The loop stops at the first success after a run of failures. */
  lemma AttemptLoopStopsAt(s: CircuitState, p: Prepared, order: seq<Provider>, outs: seq<Result<Attempted, string>>,
                           skipping: bool, now: nat, i: nat)
    requires |outs| == |order| && i < |order| && outs[i].Success? && forall j :: 0 <= j < i ==> outs[j].Failure?
    ensures var c := CircuitAfter(s, order, outs, now, i);
            AttemptLoop(s, p, order, outs, skipping, now)
            == Orchestration(SuccessOutcome(p, order, i, outs[i].value, ErrorsOf(order, outs, i), skipping, c), c)
  {
    FirstSuccessAt(outs, i);
    AttemptLoopAt(s, p, order, outs, skipping, now, i);
  }

  /** The loop's result when every attempt failed. */
  lemma AttemptLoopNone(s: CircuitState, p: Prepared, order: seq<Provider>, outs: seq<Result<Attempted, string>>,
                        skipping: bool, now: nat)
    requires |outs| == |order| >= 1 && forall j :: 0 <= j < |outs| ==> outs[j].Failure?
    ensures AttemptLoop(s, p, order, outs, skipping, now)
            == Orchestration(PlannerFailed(FailureMessage(ErrorsOf(order, outs, |order|))), CircuitAfter(s, order, outs, now, |order|))
  {
    FirstSuccessNone(outs);
  }

  /** A failed attempt at `i` extends the errors and the breaker by that
      attempt. */
  lemma FailureStep(s: CircuitState, order: seq<Provider>, outs: seq<Result<Attempted, string>>, now: nat, i: nat)
    requires i < |order| == |outs| && outs[i].Failure? && forall j :: 0 <= j < i ==> outs[j].Failure?
    ensures forall j :: 0 <= j < i + 1 ==> outs[j].Failure?
    ensures ErrorsOf(order, outs, i + 1) == ErrorsOf(order, outs, i) + [ProviderError(order[i], outs[i].error)]
    ensures CircuitAfter(s, order, outs, now, i + 1) == AfterFailure(CircuitAfter(s, order, outs, now, i), order[i], outs[i].error, now)
  {
    FailuresExtend(outs, i);
  }

  /** A planned answer comes from the first provider whose reply yields a valid
      plan; it is a fallback exactly when that is not the first provider, and
      only a fallback reports the earlier errors. Its budget starts within the
      per-call budget and what remains never grows. */
  lemma AttemptLoopSuccess(s: CircuitState, p: Prepared, order: seq<Provider>, outs: seq<Result<Attempted, string>>,
                           skipping: bool, now: nat)
    requires |outs| == |order| && DistinctOrder(order)
    requires AttemptLoop(s, p, order, outs, skipping, now).outcome.Planned?
    ensures var o := AttemptLoop(s, p, order, outs, skipping, now).outcome;
      exists k :: 0 <= k < |order| && outs[k].Success? && (forall j :: 0 <= j < k ==> outs[j].Failure?)
        && o.providerUsed == ProviderName(order[k]) && o.plan == outs[k].value.plan && o.usage == outs[k].value.usage
        && (o.usedFallback <==> k > 0)
        && o.previousErrors == (if k > 0 then ErrorsOf(order, outs, k) else [])
    ensures var o := AttemptLoop(s, p, order, outs, skipping, now).outcome;
      o.budgetBefore == p.budget.before && o.budgetAfter <= p.budget.remaining
      && o.budgetAfter == BudgetAfter(p.budget.remaining, o.usage.totalTokens)
      && (o.compacted <==> p.compaction.Some?)
  {
    var k := FirstSuccess(outs).value;
    assert order[k] != order[0] <==> k > 0;
  }

  /** When every provider fails the error lists each of them, in order, and
      no plan is produced. */
  lemma AttemptLoopFailure(s: CircuitState, p: Prepared, order: seq<Provider>, outs: seq<Result<Attempted, string>>,
                           skipping: bool, now: nat)
    requires |outs| == |order| >= 1
    ensures AttemptLoop(s, p, order, outs, skipping, now).outcome.PlannerFailed?
            <==> forall j :: 0 <= j < |outs| ==> outs[j].Failure?
    ensures AttemptLoop(s, p, order, outs, skipping, now).outcome.PlannerFailed? ==>
              AttemptLoop(s, p, order, outs, skipping, now).outcome.message == FailureMessage(ErrorsOf(order, outs, |order|))
              && |ErrorLines(ErrorsOf(order, outs, |order|))| == |order|
  {
  }

  /** The breaker changes only after a gemini-cli attempt failed with a
      classified error, and then it holds that error. */
  lemma AttemptLoopBreaker(s: CircuitState, p: Prepared, order: seq<Provider>, outs: seq<Result<Attempted, string>>,
                           skipping: bool, now: nat)
    requires |outs| == |order| >= 1
    ensures var c := AttemptLoop(s, p, order, outs, skipping, now).circuit;
      c != s ==>
        exists j :: 0 <= j < |order| && order[j] == GeminiCli && ClassifyGeminiFailure(ErrorOf(outs[j])).Some?
                    && c.lastError == Some(ErrorOf(outs[j]))
  {
    var k := FirstSuccess(outs);
    CircuitAfterChanges(s, order, outs, now, if k.Some? then k.value else |order|);
  }

  function RequestPreference(req: PlannerRequest): Provider
  {
    PreferredProvider(req.providerOverride, req.providerDefaultSetting, req.providerDefaultConfig)
  }

  /** The provider path of `orchestrateTaskMessage`: the preferred provider
      and its fallback are tried in order, against the per-call budget. */
  function ProviderPath(s: CircuitState, req: PlannerRequest, replies: Provider -> ProviderReply,
                        parse: string -> Option<Json>, now: nat): Orchestration
  {
    var pref := RequestPreference(req);
    var order := ProvidersToTry(pref, s.untilMs, now);
    var p := Prepare(req);
    AttemptLoop(s, p, order, Attempts(order, replies, parse, p.runnerKind, PromptText(p.messages)),
                InCooldown(pref, s.untilMs, now), now)
  }

  /** `orchestrateTaskMessage` as a function of the breaker state, the request,
      the providers' replies and the clock: the outcome and the new breaker. */
  function Orchestrate(s: CircuitState, req: PlannerRequest, replies: Provider -> ProviderReply,
                       parse: string -> Option<Json>, now: nat): Orchestration
  {
    if ShouldReplyAsGreeting(req.userMessage) then Orchestration(GreetingOutcome(req.projectId), s)
    else ProviderPath(s, req, replies, parse, now)
  }

  /** A greeting (or a blank message) is answered locally: no provider is
      consulted and the breaker is left as it was. */
  lemma GreetingAnsweredLocally(s: CircuitState, req: PlannerRequest, replies: Provider -> ProviderReply,
                                parse: string -> Option<Json>, now: nat)
    requires ShouldReplyAsGreeting(req.userMessage)
    ensures var o := Orchestrate(s, req, replies, parse, now);
      o.circuit == s && o.outcome.Planned? && o.outcome.providerUsed == "local-heuristic"
      && o.outcome.plan.action == Reply && !o.outcome.usedFallback
      && o.outcome.usage == Usage(0, 0, 0, Estimated)
  {
    assert Orchestrate(s, req, replies, parse, now) == Orchestration(GreetingOutcome(req.projectId), s);
  }

  // ---------------------------------------------------------------------
  // The stateful orchestrator

  /** The orchestrator module: its only state is the gemini-cli breaker. */
  class GeminiOrchestrator {
    var untilMs: nat
    var reason: Option<FailureKind>
    var lastError: Option<string>

    function State(): CircuitState
      reads this
    {
      CircuitState(untilMs, reason, lastError)
    }

    constructor ()
      ensures State() == ClosedCircuit
    {
      untilMs := 0;
      reason := None;
      lastError := None;
    }

    /** The catch block's breaker update. */
    method RecordFailure(provider: Provider, error: string, now: nat)
      modifies this
      ensures State() == AfterFailure(old(State()), provider, error, now)
    {
      if provider == GeminiCli {
        var cls := ClassifyGeminiFailure(error);
        if cls.Some? {
          untilMs := now + cls.value.cooldownMs;
          reason := Some(cls.value.kind);
          lastError := Some(error);
        }
      }
    }

    /** The provider loop of `orchestrateTaskMessage`. */
    method TryProviders(p: Prepared, order: seq<Provider>, replies: Provider -> ProviderReply,
                        parse: string -> Option<Json>, skipping: bool, now: nat) returns (out: Outcome)
      requires |order| >= 1
      modifies this
      ensures var o := AttemptLoop(old(State()), p, order, Attempts(order, replies, parse, p.runnerKind, PromptText(p.messages)),
                                   skipping, now);
        out == o.outcome && State() == o.circuit
    {
      ghost var s0 := State();
      var promptText := PromptText(p.messages);
      ghost var outs := Attempts(order, replies, parse, p.runnerKind, promptText);
      var errors: seq<ProviderError> := [];
      var i := 0;
      while i < |order|
        invariant 0 <= i <= |order|
        invariant forall j :: 0 <= j < i ==> outs[j].Failure?
        invariant errors == ErrorsOf(order, outs, i)
        invariant State() == CircuitAfter(s0, order, outs, now, i)
      {
        var attempt := AttemptPlan(replies(order[i]), parse, p.runnerKind, promptText);
        assert attempt == outs[i];
        if attempt.Success? {
          AttemptLoopStopsAt(s0, p, order, outs, skipping, now, i);
          out := SuccessOutcome(p, order, i, attempt.value, errors, skipping, State());
          return;
        }
        FailureStep(s0, order, outs, now, i);
        RecordFailure(order[i], attempt.error, now);
        errors := errors + [ProviderError(order[i], attempt.error)];
        i := i + 1;
      }
      AttemptLoopNone(s0, p, order, outs, skipping, now);
      out := PlannerFailed(FailureMessage(errors));
    }

    /** The provider path: prepare the request, then run the provider loop. */
    method PlanWithProviders(req: PlannerRequest, replies: Provider -> ProviderReply,
                             parse: string -> Option<Json>, now: nat) returns (out: Outcome)
      modifies this
      ensures Orchestration(out, State()) == ProviderPath(old(State()), req, replies, parse, now)
    {
      ghost var s0 := State();
      var p := Prepare(req);
      var pref := RequestPreference(req);
      var skipping := InCooldown(pref, untilMs, now);
      var order := ProvidersToTry(pref, untilMs, now);
      ghost var outs := Attempts(order, replies, parse, p.runnerKind, PromptText(p.messages));
      assert ProviderPath(s0, req, replies, parse, now) == AttemptLoop(s0, p, order, outs, skipping, now);
      out := TryProviders(p, order, replies, parse, skipping, now);
    }

    /** `orchestrateTaskMessage`. */
    method OrchestrateTaskMessage(req: PlannerRequest, replies: Provider -> ProviderReply,
                                  parse: string -> Option<Json>, now: nat) returns (out: Outcome)
      modifies this
      ensures Orchestration(out, State()) == Orchestrate(old(State()), req, replies, parse, now)
    {
      if ShouldReplyAsGreeting(req.userMessage) {
        out := GreetingOutcome(req.projectId);
        return;
      }
      out := PlanWithProviders(req, replies, parse, now);
    }
  }
}
