/** The key-value settings table (src/services/settings.js): an upsert, a
    lookup, the defaults written at start-up and the clamped numeric getters. */
module Settings {
  import opened Wrappers
  import opened Strings
  import opened Numbers

  const OrchestratorProviderDefaultKey: string := "orchestrator_provider_default"
  const RunnerDefaultKey: string := "runner_default"
  const MaxParallelTasksKey: string := "max_parallel_tasks"
  const MaxParallelGuiTasksKey: string := "max_parallel_gui_tasks"
  const ArtifactRetentionDaysKey: string := "artifact_retention_days"
  const TaskTimeoutMsKey: string := "task_timeout_ms"
  const PendingSelectionTtlMsKey: string := "pending_selection_ttl_ms"
  const TaskIdLengthKey: string := "task_id_length"
  const ProjectTaskHistoryLimitKey: string := "project_task_history_limit"

  /** The start-up configuration the defaults come from. */
  datatype Config = Config(orchestratorProvider: string, runnerDefault: string, maxParallelTasks: nat,
                           maxParallelGuiTasks: nat, artifactRetentionDays: nat, taskTimeoutMs: nat,
                           pendingSelectionTtlMs: nat)

  /** The configured provider, with "auto" stored as "gemini-cli". */
  function ConfiguredProvider(config: Config): (r: string)
    ensures r != "auto"
    ensures config.orchestratorProvider != "auto" ==> r == config.orchestratorProvider
  {
    if config.orchestratorProvider == "auto" then "gemini-cli" else config.orchestratorProvider
  }

  /** The defaults of `ensureDefaultSettings`, in order. */
  function Defaults(config: Config): (d: seq<(string, string)>)
    ensures |d| == 9
    ensures forall i, j :: 0 <= i < j < |d| ==> d[i].0 != d[j].0
  {
    [(OrchestratorProviderDefaultKey, ConfiguredProvider(config)),
     (RunnerDefaultKey, config.runnerDefault),
     (MaxParallelTasksKey, NatToString(config.maxParallelTasks)),
     (MaxParallelGuiTasksKey, NatToString(config.maxParallelGuiTasks)),
     (ArtifactRetentionDaysKey, NatToString(config.artifactRetentionDays)),
     (TaskTimeoutMsKey, NatToString(config.taskTimeoutMs)),
     (PendingSelectionTtlMsKey, NatToString(config.pendingSelectionTtlMs)),
     (TaskIdLengthKey, "2"),
     (ProjectTaskHistoryLimitKey, "15")]
  }

  /** `parsePositiveIntOr(defaultValue, raw, { min, max })`: the number `raw`
      starts with when it lies in [min, max], the default otherwise. A missing
      `raw` is the empty string. */
  function ParsePositiveIntOr(defaultValue: int, raw: string, min: int, max: int): (r: int)
    ensures ParseIntPrefix(raw).Some? && min <= ParseIntPrefix(raw).value <= max ==> r == ParseIntPrefix(raw).value
    ensures ParseIntPrefix(raw).None? || !(min <= ParseIntPrefix(raw).value <= max) ==> r == defaultValue
  {
    match ParseIntPrefix(raw)
    case None => defaultValue
    case Some(n) => if n < min || n > max then defaultValue else n
  }

  /** The raw text of a setting, the empty string when it is absent. */
  function RawSetting(table: map<string, string>, key: string): string
  {
    if key in table then table[key] else ""
  }

  /** `getTaskIdLength` over a settings table. */
  function TaskIdLengthOf(table: map<string, string>): (r: int)
    ensures 1 <= r <= 8
    ensures TaskIdLengthKey !in table ==> r == 2
  {
    ParsePositiveIntOr(2, RawSetting(table, TaskIdLengthKey), 1, 8)
  }

  /** `getProjectTaskHistoryLimit` over a settings table. */
  function ProjectTaskHistoryLimitOf(table: map<string, string>): (r: int)
    ensures 1 <= r <= 500
    ensures ProjectTaskHistoryLimitKey !in table ==> r == 15
  {
    ParsePositiveIntOr(15, RawSetting(table, ProjectTaskHistoryLimitKey), 1, 500)
  }

  /** A task-id length stored as its decimal text reads back as itself. */
  lemma TaskIdLengthRoundTrip(table: map<string, string>, n: int)
    requires 1 <= n <= 8
    ensures TaskIdLengthOf(table[TaskIdLengthKey := IntToString(n)]) == n
  {
    ParseIntRoundTrip(n);
  }

  /** A history limit stored as its decimal text reads back as itself. */
  lemma HistoryLimitRoundTrip(table: map<string, string>, n: int)
    requires 1 <= n <= 500
    ensures ProjectTaskHistoryLimitOf(table[ProjectTaskHistoryLimitKey := IntToString(n)]) == n
  {
    ParseIntRoundTrip(n);
  }

  /** The settings table. */
  class SettingsStore {
    var table: map<string, string>

    constructor ()
      ensures table == map[]
    {
      table := map[];
    }

    /** `getSetting`: None when the key is absent. */
    function GetSetting(key: string): (r: Option<string>)
      reads this
      ensures r.Some? <==> key in table
      ensures r.Some? ==> r.value == table[key]
    {
      if key in table then Some(table[key]) else None
    }

    /** `setSetting`: an upsert; the value is stored as text. */
    method SetSetting(key: string, value: string)
      modifies this
      ensures table == old(table)[key := value]
      ensures GetSetting(key) == Some(value)
    {
      table := table[key := value];
    }

    /** `ensureDefaultSettings`: every default whose key is absent is written;
        keys already present keep their values, and no other key appears. */
    method EnsureDefaultSettings(config: Config)
      modifies this
      ensures forall k :: k in old(table) ==> k in table && table[k] == old(table)[k]
      ensures forall i :: 0 <= i < 9 ==> Defaults(config)[i].0 in table
      ensures forall i :: 0 <= i < 9 && Defaults(config)[i].0 !in old(table) ==>
                table[Defaults(config)[i].0] == Defaults(config)[i].1
      ensures forall k :: k in table ==> k in old(table) || exists i :: 0 <= i < 9 && Defaults(config)[i].0 == k
    {
      WriteMissing(Defaults(config));
    }

    /** The loop of `ensureDefaultSettings` over defaults with distinct keys. */
    method WriteMissing(defaults: seq<(string, string)>)
      requires forall i, j :: 0 <= i < j < |defaults| ==> defaults[i].0 != defaults[j].0
      modifies this
      ensures forall k :: k in old(table) ==> k in table && table[k] == old(table)[k]
      ensures forall i :: 0 <= i < |defaults| ==> defaults[i].0 in table
      ensures forall i :: 0 <= i < |defaults| && defaults[i].0 !in old(table) ==> table[defaults[i].0] == defaults[i].1
      ensures forall k :: k in table ==> k in old(table) || exists i :: 0 <= i < |defaults| && defaults[i].0 == k
    {
      var i := 0;
      while i < |defaults|
        invariant 0 <= i <= |defaults|
        invariant forall k :: k in old(table) ==> k in table && table[k] == old(table)[k]
        invariant forall j :: 0 <= j < i ==> defaults[j].0 in table
        invariant forall j :: 0 <= j < i && defaults[j].0 !in old(table) ==> table[defaults[j].0] == defaults[j].1
        invariant forall j :: i <= j < |defaults| ==> (defaults[j].0 in table <==> defaults[j].0 in old(table))
        invariant forall k :: k in table ==> k in old(table) || exists j :: 0 <= j < i && defaults[j].0 == k
      {
        var (key, value) := defaults[i];
        var existing := GetSetting(key);
        if existing.None? {
          SetSetting(key, value);
        }
        i := i + 1;
      }
    }

    /** `getRunnerDefault`: the stored default unless it is missing or empty. */
    function GetRunnerDefault(config: Config): (r: string)
      reads this
      ensures RawSetting(table, RunnerDefaultKey) != [] ==> r == table[RunnerDefaultKey]
      ensures RawSetting(table, RunnerDefaultKey) == [] ==> r == config.runnerDefault
    {
      var stored := GetSetting(RunnerDefaultKey);
      if stored.Some? && stored.value != [] then stored.value else config.runnerDefault
    }

    /** `getOrchestratorProviderDefault`: the stored default unless it is
        missing or empty, else the configured provider with "auto" read as
        "gemini-cli". */
    function GetOrchestratorProviderDefault(config: Config): (r: string)
      reads this
      ensures RawSetting(table, OrchestratorProviderDefaultKey) != [] ==> r == table[OrchestratorProviderDefaultKey]
      ensures RawSetting(table, OrchestratorProviderDefaultKey) == [] ==> r == ConfiguredProvider(config) && r != "auto"
    {
      var stored := GetSetting(OrchestratorProviderDefaultKey);
      if stored.Some? && stored.value != [] then stored.value else ConfiguredProvider(config)
    }

    /** `getTaskIdLength`. */
    function GetTaskIdLength(): (r: int)
      reads this
      ensures 1 <= r <= 8
    {
      TaskIdLengthOf(table)
    }

    /** `getProjectTaskHistoryLimit`. */
    function GetProjectTaskHistoryLimit(): (r: int)
      reads this
      ensures 1 <= r <= 500
    {
      ProjectTaskHistoryLimitOf(table)
    }
  }
}
