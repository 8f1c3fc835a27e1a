/** The planner's JSON plan: the field domains the schema enforces and the
    per-action required fields `validatePlan` checks (src/planner/schema.js).
    The schema library itself is not modelled; its field checks are written
    out over parsed JSON values. */
module PlanSchema {
  import opened Wrappers
  import opened Strings
  import opened Json

  /** The 14 plan actions. */
  datatype Action =
    | Run | Reply
    | SetProject | SetRunner | SetOrchestrator | SetTaskPolicy
    | MemoryAppend | MemorySet | MemoryClear | MemoryShow
    | ProjectAdd | ProjectMkdir | ProjectClone | ProjectScan

  function ActionName(a: Action): string
  {
    match a
    case Run => "run"
    case Reply => "reply"
    case SetProject => "set_project"
    case SetRunner => "set_runner"
    case SetOrchestrator => "set_orchestrator"
    case SetTaskPolicy => "set_task_policy"
    case MemoryAppend => "memory_append"
    case MemorySet => "memory_set"
    case MemoryClear => "memory_clear"
    case MemoryShow => "memory_show"
    case ProjectAdd => "project_add"
    case ProjectMkdir => "project_mkdir"
    case ProjectClone => "project_clone"
    case ProjectScan => "project_scan"
  }

  /** The action enum: exactly the 14 listed names are accepted. */
  function ParseAction(s: string): (r: Option<Action>)
    ensures r.Some? ==> ActionName(r.value) == s
  {
    if s == "run" then Some(Run)
    else if s == "reply" then Some(Reply)
    else if s == "set_project" then Some(SetProject)
    else if s == "set_runner" then Some(SetRunner)
    else if s == "set_orchestrator" then Some(SetOrchestrator)
    else if s == "set_task_policy" then Some(SetTaskPolicy)
    else if s == "memory_append" then Some(MemoryAppend)
    else if s == "memory_set" then Some(MemorySet)
    else if s == "memory_clear" then Some(MemoryClear)
    else if s == "memory_show" then Some(MemoryShow)
    else if s == "project_add" then Some(ProjectAdd)
    else if s == "project_mkdir" then Some(ProjectMkdir)
    else if s == "project_clone" then Some(ProjectClone)
    else if s == "project_scan" then Some(ProjectScan)
    else None
  }

  /** Every action's name is accepted and read back as that action. */
  lemma ActionNameRoundTrip(a: Action)
    ensures ParseAction(ActionName(a)) == Some(a)
  {
  }

  datatype Provider = GeminiCli | OpenRouter | Auto

  function ProviderName(p: Provider): string
  {
    match p
    case GeminiCli => "gemini-cli"
    case OpenRouter => "openrouter"
    case Auto => "auto"
  }

  /** The orchestrator-provider enum. */
  function ParseProvider(s: string): (r: Option<Provider>)
    ensures r.Some? <==> s in {"gemini-cli", "openrouter", "auto"}
    ensures r.Some? ==> ProviderName(r.value) == s
  {
    if s == "gemini-cli" then Some(GeminiCli)
    else if s == "openrouter" then Some(OpenRouter)
    else if s == "auto" then Some(Auto)
    else None
  }

  datatype Scope = TaskScope | UserScope | GlobalScope

  /** The scope enum. */
  function ParseScope(s: string): (r: Option<Scope>)
    ensures r.Some? <==> s in {"task", "user", "global"}
  {
    if s == "task" then Some(TaskScope)
    else if s == "user" then Some(UserScope)
    else if s == "global" then Some(GlobalScope)
    else None
  }

  /** A plan after schema parsing. Absent optional fields are `None`. */
  datatype Plan = Plan(
    version: int,
    action: Action,
    replyText: Option<string>,
    runnerKind: Option<string>,
    prompt: Option<string>,
    projectId: Option<string>,
    createNewTask: Option<bool>,
    scope: Option<Scope>,
    provider: Option<Provider>,
    taskIdLength: Option<nat>,
    projectTaskHistoryLimit: Option<nat>,
    id: Option<string>,
    cwd: Option<string>,
    dir: Option<string>,
    projectType: Option<string>,
    name: Option<string>,
    gitUrl: Option<string>,
    depth: Option<nat>,
    title: Option<string>,
    memoryText: Option<string>)

  /** An optional string field: absent, or a string. */
  function OptString(raw: Json, key: string): Result<Option<string>, string>
  {
    var v := Get(raw, key);
    if v.None? then Success(None)
    else if v.value.JStr? then Success(Some(v.value.s))
    else Failure("Invalid plan: " + key + " must be a string")
  }

  /** `z.coerce.number()` of a present value: the number when it is a finite integer. */
  function CoercedInt(v: Json): Option<int>
  {
    var n := ToNumber(Some(v));
    if n.Finite? && n.r == n.r.Floor as real then Some(n.r.Floor) else None
  }

  /** An optional positive-integer field (coerced from its JSON value). */
  function OptPositive(raw: Json, key: string): (r: Result<Option<nat>, string>)
    ensures r.Success? && r.value.Some? ==> r.value.value > 0
  {
    var v := Get(raw, key);
    if v.None? then Success(None)
    else
      var n := CoercedInt(v.value);
      if n.Some? && n.value > 0 then Success(Some(n.value))
      else Failure("Invalid plan: " + key + " must be a positive integer")
  }

  /** `runner_kind`: a string that is non-empty once trimmed, stored trimmed. */
  function OptRunnerKind(raw: Json): (r: Result<Option<string>, string>)
    ensures r.Success? && r.value.Some? ==> r.value.value != [] && Trim(r.value.value) == r.value.value
  {
    var v := Get(raw, "runner_kind");
    if v.None? then Success(None)
    else if v.value.JStr? && Trim(v.value.s) != [] then
      TrimIdempotent(v.value.s);
      Success(Some(Trim(v.value.s)))
    else Failure("Invalid plan: runner_kind must be a non-empty string")
  }

  function OptScope(raw: Json): Result<Option<Scope>, string>
  {
    var v := Get(raw, "scope");
    if v.None? then Success(None)
    else if v.value.JStr? && ParseScope(v.value.s).Some? then Success(ParseScope(v.value.s))
    else Failure("Invalid plan: scope must be task, user or global")
  }

  function OptProvider(raw: Json): Result<Option<Provider>, string>
  {
    var v := Get(raw, "provider");
    if v.None? then Success(None)
    else if v.value.JStr? && ParseProvider(v.value.s).Some? then Success(ParseProvider(v.value.s))
    else Failure("Invalid plan: provider must be gemini-cli, openrouter or auto")
  }

  /** The schema parse: an object whose `action` is one of the 14 names and
      whose optional fields have their declared types; `version` defaults to 1. */
  function ParsePlan(raw: Json): (r: Result<Plan, string>)
    ensures r.Success? ==> raw.JObj?
    ensures r.Success? ==> Get(raw, "action") == Some(JStr(ActionName(r.value.action)))
    ensures r.Success? && Get(raw, "version").None? ==> r.value.version == 1
    ensures r.Success? && r.value.runnerKind.Some? ==> r.value.runnerKind.value != []
    ensures r.Success? && r.value.taskIdLength.Some? ==> r.value.taskIdLength.value > 0
    ensures r.Success? && r.value.projectTaskHistoryLimit.Some? ==> r.value.projectTaskHistoryLimit.value > 0
    ensures raw.JObj? && (Get(raw, "action").None? || !Get(raw, "action").value.JStr?) ==> r.Failure?
    ensures raw.JObj? && Get(raw, "action").Some? && Get(raw, "action").value.JStr? &&
            ParseAction(Get(raw, "action").value.s).None?
            ==> r.Failure?
  {
    if !raw.JObj? then Failure("Invalid plan: expected an object")
    else
      var a := Get(raw, "action");
      if a.None? || !a.value.JStr? || ParseAction(a.value.s).None? then
        Failure("Invalid plan: action must be one of the listed actions")
      else
        var v := Get(raw, "version");
        var version := if v.None? then Some(1) else CoercedInt(v.value);
        if version.None? then Failure("Invalid plan: version must be an integer")
        else
          var replyText := OptString(raw, "reply_text");
          var runnerKind := OptRunnerKind(raw);
          var prompt := OptString(raw, "prompt");
          var projectId := OptString(raw, "project_id");
          var scope := OptScope(raw);
          var provider := OptProvider(raw);
          var taskIdLength := OptPositive(raw, "task_id_length");
          var historyLimit := OptPositive(raw, "project_task_history_limit");
          var id := OptString(raw, "id");
          var cwd := OptString(raw, "cwd");
          var dir := OptString(raw, "dir");
          var projectType := OptString(raw, "type");
          var name := OptString(raw, "name");
          var gitUrl := OptString(raw, "git_url");
          var depth := OptPositive(raw, "depth");
          var title := OptString(raw, "title");
          var memoryText := OptString(raw, "memory_text");
          if replyText.Failure? then Failure(replyText.error)
          else if runnerKind.Failure? then Failure(runnerKind.error)
          else if prompt.Failure? then Failure(prompt.error)
          else if projectId.Failure? then Failure(projectId.error)
          else if scope.Failure? then Failure(scope.error)
          else if provider.Failure? then Failure(provider.error)
          else if taskIdLength.Failure? then Failure(taskIdLength.error)
          else if historyLimit.Failure? then Failure(historyLimit.error)
          else if id.Failure? then Failure(id.error)
          else if cwd.Failure? then Failure(cwd.error)
          else if dir.Failure? then Failure(dir.error)
          else if projectType.Failure? then Failure(projectType.error)
          else if name.Failure? then Failure(name.error)
          else if gitUrl.Failure? then Failure(gitUrl.error)
          else if depth.Failure? then Failure(depth.error)
          else if title.Failure? then Failure(title.error)
          else if memoryText.Failure? then Failure(memoryText.error)
          else
            var createNewTask := Get(raw, "create_new_task");
            Success(Plan(version.value, ParseAction(a.value.s).value, replyText.value, runnerKind.value,
              prompt.value, projectId.value,
              if createNewTask.None? then None else Some(Truthy(createNewTask)),
              scope.value, provider.value, taskIdLength.value, historyLimit.value,
              id.value, cwd.value, dir.value, projectType.value, name.value, gitUrl.value, depth.value,
              title.value, memoryText.value))
  }

  /** A present, non-blank string field. */
  predicate Filled(f: Option<string>) { f.Some? && !IsBlank(f.value) }

  /** The per-action required fields. */
  predicate HasRequiredFields(p: Plan)
  {
    match p.action
    case Reply => Filled(p.replyText)
    case Run => Filled(p.prompt)
    case SetProject => Filled(p.projectId)
    case SetRunner => p.runnerKind.Some?
    case SetOrchestrator => p.provider.Some?
    case SetTaskPolicy => p.taskIdLength.Some? || p.projectTaskHistoryLimit.Some?
    case ProjectAdd => Filled(p.id) && Filled(p.cwd)
    case ProjectMkdir => Filled(p.id) && Filled(p.dir)
    case ProjectClone => Filled(p.id) && Filled(p.gitUrl)
    case MemoryAppend => Filled(p.memoryText)
    case MemorySet => Filled(p.memoryText)
    case ProjectScan => true
    case MemoryClear => true
    case MemoryShow => true
  }

  /** The first required field that is missing for the plan's action, or None
      when all are present. */
  function MissingField(p: Plan): (field: Option<string>)
    ensures field.None? <==> HasRequiredFields(p)
  {
    match p.action
    case Reply => if !Filled(p.replyText) then Some("reply_text") else None
    case Run => if !Filled(p.prompt) then Some("prompt") else None
    case SetProject => if !Filled(p.projectId) then Some("project_id") else None
    case SetRunner => if p.runnerKind.None? then Some("runner_kind") else None
    case SetOrchestrator => if p.provider.None? then Some("provider") else None
    case SetTaskPolicy =>
      if p.taskIdLength.None? && p.projectTaskHistoryLimit.None?
      then Some("task_id_length or project_task_history_limit") else None
    case ProjectAdd =>
      if !Filled(p.id) then Some("id") else if !Filled(p.cwd) then Some("cwd") else None
    case ProjectMkdir =>
      if !Filled(p.id) then Some("id") else if !Filled(p.dir) then Some("dir") else None
    case ProjectClone =>
      if !Filled(p.id) then Some("id") else if !Filled(p.gitUrl) then Some("git_url") else None
    case MemoryAppend => if !Filled(p.memoryText) then Some("memory_text") else None
    case MemorySet => if !Filled(p.memoryText) then Some("memory_text") else None
    case ProjectScan => None
    case MemoryClear => None
    case MemoryShow => None
  }

  /** `validatePlan`: schema parse, then the per-action required-field checks;
      a valid plan is returned unchanged. */
  function ValidatePlan(raw: Json): (r: Result<Plan, string>)
    ensures r.Success? <==> ParsePlan(raw).Success? && HasRequiredFields(ParsePlan(raw).value)
    ensures r.Success? ==> r.value == ParsePlan(raw).value
  {
    var parsed := ParsePlan(raw);
    if parsed.Failure? then parsed
    else
      var missing := MissingField(parsed.value);
      if missing.Some? then
        Failure("Invalid plan: " + missing.value + " is required for action=" + ActionName(parsed.value.action))
      else parsed
  }

  /** A valid 'run' plan has a non-blank prompt but may lack runner_kind; a
      valid 'set_runner' plan always has a non-empty runner_kind. */
  lemma ValidRunPlans(raw: Json)
    requires ValidatePlan(raw).Success?
    ensures var p := ValidatePlan(raw).value;
      (p.action == Run ==> p.prompt.Some? && !AllSpace(p.prompt.value))
      && (p.action == SetRunner ==> p.runnerKind.Some? && p.runnerKind.value != [])
      && (p.action == SetOrchestrator ==> p.provider.Some?)
  {
    var p := ValidatePlan(raw).value;
    if p.action == Run {
      BlankIffAllSpace(p.prompt.value);
    }
  }
}
