/** The routing half of src/services/inbound-core.js: which runner a task
    gets, and where `processUserMessage` and `routeToTask` send a user's
    message, over the task store's tables. */
module InboundRouting {
  import opened Wrappers
  import opened Strings
  import Runners
  import Orchestrator
  import TaskStore
  import opened InboundCore

  // ---------------------------------------------------------------- runner choice

  /** 'codex-cli' is a runner. */
  lemma CodexSupported()
    ensures Runners.IsSupported("codex-cli")
  {
    assert Runners.GetRunner("codex-cli").Some?;
  }

  /** `resolveRunnerForUser`: the user's override, else the global default,
      lower-cased; 'auto' and unsupported kinds become 'codex-cli'. */
  function ResolveRunnerForUser(runnerOverride: Option<string>, setting: string, configured: string): (k: string)
    ensures Runners.IsSupported(k) && k != "auto"
    ensures k == "codex-cli"
            || (TaskStore.Present(runnerOverride) && k == Lower(runnerOverride.value))
            || (!TaskStore.Present(runnerOverride) && k == Orchestrator.GlobalRunnerDefault(setting, configured))
    ensures TaskStore.Present(runnerOverride) && Runners.IsSupported(Lower(runnerOverride.value)) ==>
              k == Lower(runnerOverride.value)
    ensures !TaskStore.Present(runnerOverride) && Runners.IsSupported(Orchestrator.GlobalRunnerDefault(setting, configured)) ==>
              k == Orchestrator.GlobalRunnerDefault(setting, configured)
  {
    var g := Orchestrator.GlobalRunnerDefault(setting, configured);
    LowerIdempotent(if setting != "" then setting else if configured != "" then configured else "codex-cli");
    CodexSupported();
    Runners.GetRunnerRoundTrip(Runners.Codex);
    var effective := Lower(if TaskStore.Present(runnerOverride) then runnerOverride.value else g);
    if effective == "auto" then "codex-cli"
    else if Runners.IsSupported(effective) then effective
    else "codex-cli"
  }

  /** A concrete kind: set, and not 'auto'. */
  predicate Concrete(k: string) { k != "" && k != "auto" }

  /** The runner `routeToTask` forces on the planner: the task's own runner
      when it is concrete, else the user's override when it is concrete,
      else none, so 'auto' leaves the choice to the planner. */
  function ForcedRunnerKind(taskRunner: string, userOverride: Option<string>): (r: Option<string>)
    ensures r.Some? ==> Concrete(r.value) && Lower(r.value) == r.value
    ensures Concrete(Lower(taskRunner)) ==> r == Some(Lower(taskRunner))
    ensures !Concrete(Lower(taskRunner)) && userOverride.Some? && Concrete(Lower(userOverride.value)) ==>
              r == Some(Lower(userOverride.value))
    ensures r.None? <==> !Concrete(Lower(taskRunner)) && (userOverride.None? || !Concrete(Lower(userOverride.value)))
  {
    var t := Lower(taskRunner);
    var u := Lower(if userOverride.Some? then userOverride.value else "");
    LowerIdempotent(taskRunner);
    LowerIdempotent(if userOverride.Some? then userOverride.value else "");
    if Concrete(t) then Some(t)
    else if Concrete(u) then Some(u)
    else None
  }

  /** The kind an 'action=run' plan executes with: the forced kind, else the
      plan's, else the global default `g`; 'auto' falls back to the global
      default, and what is still 'auto' or unsupported becomes the forced
      kind when that one is supported, else 'codex-cli'. */
  function FinalRunnerKind(forced: Option<string>, planRunner: string, g: string): (k: string)
    ensures Runners.IsSupported(k) && k != "auto"
    ensures TaskStore.Present(forced) && Runners.IsSupported(Lower(forced.value)) ==> k == Lower(forced.value)
    ensures !TaskStore.Present(forced) && planRunner != "" && Runners.IsSupported(Lower(planRunner)) ==>
              k == Lower(planRunner)
    ensures k == "codex-cli" || k == Lower(g) || k == Lower(planRunner) || (forced.Some? && k == Lower(forced.value))
  {
    CodexSupported();
    Runners.GetRunnerRoundTrip(Runners.Codex);
    var first := Lower(if TaskStore.Present(forced) then forced.value else if planRunner != "" then planRunner else g);
    var second := if first == "auto" then Lower(g) else first;
    if second == "auto" || !Runners.IsSupported(second) then
      var f := Lower(if forced.Some? then forced.value else "");
      if Runners.IsSupported(f) then f else "codex-cli"
    else second
  }

  /** A supported runner on the task is the kind the run executes with,
      whatever the user's override and the plan say. */
  lemma TaskRunnerWins(taskRunner: string, userOverride: Option<string>, planRunner: string, g: string)
    requires Runners.IsSupported(Lower(taskRunner))
    ensures FinalRunnerKind(ForcedRunnerKind(taskRunner, userOverride), planRunner, g) == Lower(taskRunner)
  {
    Runners.GetRunnerRoundTrip(Runners.Codex);
    LowerIdempotent(taskRunner);
  }

  /** Without a concrete runner on the task or the user, the planner's
      supported choice is taken. */
  lemma PlannerChoosesWhenAuto(userOverride: Option<string>, planRunner: string, g: string)
    requires userOverride.None? || !Concrete(Lower(userOverride.value))
    requires planRunner != "" && Runners.IsSupported(Lower(planRunner))
    ensures FinalRunnerKind(ForcedRunnerKind("auto", userOverride), planRunner, g) == Lower(planRunner)
  {
    assert Lower("auto") == "auto";
  }

  // ---------------------------------------------------------------- routing a user message

  /** Where `processUserMessage` sends a message. */
  datatype Route =
    | Resumed(taskId: string, prompt: string, runnerKind: string) // a pending purchase was confirmed; the run to enqueue
    | ByPrefix(taskId: string, message: string)  // "<id>: <message>"
    | InvalidSelection                           // a reply to "which task?" that names none
    | BySelection(taskId: string, message: string) // a reply to "which task?", with the original message
    | ToFocused(taskId: string)
    | ToActive(taskId: string)                   // the newest active task, in fixed-task mode or when it is the only one
    | AskWhich(candidates: seq<string>)          // the user is asked to choose
    | ToNewTask

  /** The facts of the moment the message arrives: the clock, the channel's
      mode, the selection TTL, the id and project a new task would get, and
      the runner defaults. */
  datatype Context = Context(
    now: int, fixedTaskMode: bool, selectionTtl: int,
    newTaskId: string, projectId: string, cwd: string,
    runnerSetting: string, runnerConfig: string)

  /** The ids of a list of tasks, in order. */
  function TaskIds(ts: seq<TaskStore.Task>): (ids: seq<string>)
    ensures |ids| == |ts| && forall i :: 0 <= i < |ts| ==> ids[i] == ts[i].taskId
  {
    seq(|ts|, i requires 0 <= i < |ts| => ts[i].taskId)
  }

  /** The tables after `ensureUser`. */
  function WithUser(db: TaskStore.Tables, phone: string, now: int): TaskStore.Tables
  {
    db.(users := db.users[phone := TaskStore.TouchedUser(db.users, phone, now)])
  }

  /** The tables after `setUserFocusedTask(phone, taskId)`. */
  function WithFocus(db: TaskStore.Tables, phone: string, taskId: string, now: int): TaskStore.Tables
  {
    db.(users := db.users[phone := TaskStore.TouchedUser(db.users, phone, now).(focusedTaskId := TaskStore.OrNull(Some(taskId)))])
  }

  /** A pending purchase confirmation that has not expired. */
  predicate ConfirmationLive(db: TaskStore.Tables, phone: string, now: int)
  {
    phone in db.confirmations && now <= db.confirmations[phone].expiresAt
  }

  /** A live pending confirmation answered by a confirmation text. */
  predicate Confirming(db: TaskStore.Tables, phone: string, text: string, now: int)
  {
    ConfirmationLive(db, phone, now) && IsPurchaseConfirmationText(text)
  }

  /** The task a pending confirmation resumes, when it still exists and is
      the user's own. */
  function ConfirmedTask(db: TaskStore.Tables, phone: string): (r: Option<TaskStore.Task>)
    ensures r.Some? ==> phone in db.confirmations && r.value.phone == phone
                        && TaskStore.FindTask(db.tasks, db.confirmations[phone].taskId) == r
  {
    if phone !in db.confirmations then None
    else match TaskStore.FindTask(db.tasks, db.confirmations[phone].taskId)
      case Some(t) => if t.phone == phone then Some(t) else None
      case None => None
  }

  /** The audit line recorded on the task when a purchase is confirmed: the
      first 200 characters of the raw text. */
  function ConfirmationAudit(text: string): (r: string)
    ensures 25 <= |r| <= 25 + 200 && r[..25] == "User confirmed purchase: "
  {
    "User confirmed purchase: " + Prefix(text, 200)
  }

  /** The tables after `resumePendingConfirmation` on a live confirmation:
      the confirmation is always cleared, and the audit line is added only
      when the task is still the user's. */
  function Resumption(db: TaskStore.Tables, phone: string, text: string, now: int): (r: TaskStore.Tables)
    ensures phone !in r.confirmations
    ensures r.tasks == db.tasks && r.runs == db.runs && r.users == db.users && r.selections == db.selections
    ensures ConfirmedTask(db, phone).None? ==> r.messages == db.messages
    ensures ConfirmedTask(db, phone).Some? ==>
              r.messages == db.messages
                            + [TaskStore.TaskMessage(ConfirmedTask(db, phone).value.taskId, "system", ConfirmationAudit(text), now)]
  {
    var cleared := db.(confirmations := db.confirmations - {phone});
    match ConfirmedTask(db, phone)
    case Some(t) => cleared.(messages := db.messages + [TaskStore.TaskMessage(t.taskId, "system", ConfirmationAudit(text), now)])
    case None => cleared
  }

  /** The tables after the purchase-confirmation step of
      `processUserMessage`. */
  function AfterConfirming(db: TaskStore.Tables, phone: string, text: string, now: int): TaskStore.Tables
  {
    if Confirming(db, phone, text, now) then Resumption(db, phone, text, now) else db
  }

  /** The confirmation step resumed a purchase. */
  predicate ResumesPurchase(db: TaskStore.Tables, phone: string, text: string, now: int)
  {
    Confirming(db, phone, text, now) && ConfirmedTask(db, phone).Some?
  }

  /** The tables once an expired purchase confirmation and an expired
      selection are cleared. */
  function Expired(db: TaskStore.Tables, phone: string, now: int): (r: TaskStore.Tables)
    ensures r.users == db.users && r.tasks == db.tasks && r.runs == db.runs && r.messages == db.messages
    ensures phone in r.selections <==> phone in db.selections && now <= db.selections[phone].expiresAt
    ensures phone in r.selections ==> r.selections[phone] == db.selections[phone]
    ensures phone in r.confirmations <==> ConfirmationLive(db, phone, now)
  {
    var c := if phone in db.confirmations && now > db.confirmations[phone].expiresAt
             then db.(confirmations := db.confirmations - {phone}) else db;
    if phone in c.selections && now > c.selections[phone].expiresAt
    then c.(selections := c.selections - {phone}) else c
  }

  /** The id a reply names among the candidates, or "" for a position
      outside them. */
  function Chosen(sel: Selection, candidates: seq<string>): string
  {
    match sel
    case ByTaskId(id) => id
    case ByIndex(n) => if 1 <= n <= |candidates| then candidates[n - 1] else ""
  }

  /** The focused task, when the user has one that exists and is theirs. */
  function FocusedTask(db: TaskStore.Tables, phone: string): (r: Option<string>)
    ensures r.Some? ==> TaskStore.FindTask(db.tasks, r.value).Some?
                        && TaskStore.FindTask(db.tasks, r.value).value.phone == phone
  {
    if phone in db.users && TaskStore.Present(db.users[phone].focusedTaskId) then
      var t := TaskStore.FindTask(db.tasks, db.users[phone].focusedTaskId.value);
      if t.Some? && t.value.phone == phone then Some(t.value.taskId) else None
    else None
  }

  /** The routing order of `processUserMessage` once expired state is
      cleared: a task prefix, then a reply to a pending selection, then the
      focused task, then the newest active task in fixed-task mode, then the
      only active task, then a question among up to six active tasks, then
      a new task. */
  function ChooseRoute(db: TaskStore.Tables, phone: string, text: string, fixedTaskMode: bool): (r: Route)
    ensures ParseTaskPrefix(text).Some? ==>
              r == ByPrefix(ParseTaskPrefix(text).value.taskId, ParseTaskPrefix(text).value.message)
    ensures r.BySelection? ==> phone in db.selections && r.message == db.selections[phone].originalMessage
    ensures r.InvalidSelection? || r.BySelection? ==> phone in db.selections && ParseSelectionReply(text).Some?
    ensures r.ToFocused? ==> FocusedTask(db, phone) == Some(r.taskId)
    ensures r.ToActive? ==> exists t :: t in TaskStore.ActiveTasksByPhone(db.tasks, phone) && t.taskId == r.taskId
    ensures r.AskWhich? ==> !fixedTaskMode && 2 <= |r.candidates| <= 6
    ensures r.AskWhich? ==> forall i :: 0 <= i < |r.candidates| ==>
              exists t :: t in TaskStore.ActiveTasksByPhone(db.tasks, phone) && t.taskId == r.candidates[i]
    ensures r.ToNewTask? <==> ParseTaskPrefix(text).None?
                              && (phone !in db.selections || ParseSelectionReply(text).None?)
                              && FocusedTask(db, phone).None? && TaskStore.ActiveTasksByPhone(db.tasks, phone) == []
    ensures !r.Resumed?
  {
    var pref := ParseTaskPrefix(text);
    var sel := ParseSelectionReply(text);
    if pref.Some? then ByPrefix(pref.value.taskId, pref.value.message)
    else if phone in db.selections && sel.Some? then
      var id := Chosen(sel.value, db.selections[phone].candidateTaskIds);
      if id == "" then InvalidSelection else BySelection(id, db.selections[phone].originalMessage)
    else ActiveRoute(db, phone, fixedTaskMode)
  }

  /** The steps of `ChooseRoute` after the task prefix: a reply to a pending
      selection picks the candidate it names, and is invalid exactly when it
      names none; a message that is neither a prefix nor a reply is routed by
      `ActiveRoute`. */
  lemma ChooseRouteSteps(db: TaskStore.Tables, phone: string, text: string, fixedTaskMode: bool)
    ensures var r := ChooseRoute(db, phone, text, fixedTaskMode);
            ParseTaskPrefix(text).None? && !(phone in db.selections && ParseSelectionReply(text).Some?)
            ==> r == ActiveRoute(db, phone, fixedTaskMode)
    ensures var r := ChooseRoute(db, phone, text, fixedTaskMode);
            ParseTaskPrefix(text).None? && phone in db.selections && ParseSelectionReply(text).Some? ==>
              var id := Chosen(ParseSelectionReply(text).value, db.selections[phone].candidateTaskIds);
              (r.InvalidSelection? <==> id == "") && (r.BySelection? <==> id != "")
    ensures var r := ChooseRoute(db, phone, text, fixedTaskMode);
            r.BySelection? ==>
              r.taskId == Chosen(ParseSelectionReply(text).value, db.selections[phone].candidateTaskIds)
  {
  }

  /** The route of a message that addresses no task: the focused task, the
      only (or, in fixed-task mode, the first) active task, a question
      among up to six active tasks, or a new task. */
  function ActiveRoute(db: TaskStore.Tables, phone: string, fixedTaskMode: bool): (r: Route)
    ensures r.ToFocused? || r.ToActive? || r.AskWhich? || r.ToNewTask?
    ensures r.ToFocused? <==> FocusedTask(db, phone).Some?
    ensures r.ToFocused? ==> FocusedTask(db, phone) == Some(r.taskId)
    ensures r.ToActive? ==> exists t :: t in TaskStore.ActiveTasksByPhone(db.tasks, phone) && t.taskId == r.taskId
    ensures r.AskWhich? ==> !fixedTaskMode && 2 <= |r.candidates| <= 6
    ensures r.AskWhich? ==> forall i :: 0 <= i < |r.candidates| ==>
              exists t :: t in TaskStore.ActiveTasksByPhone(db.tasks, phone) && t.taskId == r.candidates[i]
    ensures r.ToNewTask? <==> FocusedTask(db, phone).None? && TaskStore.ActiveTasksByPhone(db.tasks, phone) == []
  {
    var active := TaskStore.ActiveTasksByPhone(db.tasks, phone);
    var focus := FocusedTask(db, phone);
    if focus.Some? then ToFocused(focus.value)
    else if active != [] && (fixedTaskMode || |active| == 1) then
      assert active[0] in active;
      ToActive(active[0].taskId)
    else if |active| > 1 then
      var r := AskAmong(active);
      assert forall i :: 0 <= i < |r.candidates| ==> active[i] in active;
      r
    else ToNewTask
  }

  /** Which of the active tasks `ActiveRoute` picks: without a focused task,
      the newest active one exactly in fixed-task mode or when it is the only
      one, and otherwise, with several, a question listing the first (newest)
      six in order. */
  lemma ActiveRouteChoice(db: TaskStore.Tables, phone: string, fixedTaskMode: bool)
    ensures var r := ActiveRoute(db, phone, fixedTaskMode);
            var active := TaskStore.ActiveTasksByPhone(db.tasks, phone);
            (r.ToActive? <==> FocusedTask(db, phone).None? && active != [] && (fixedTaskMode || |active| == 1))
            && (r.ToActive? ==> active != [] && r.taskId == active[0].taskId)
            && (r.AskWhich? <==> FocusedTask(db, phone).None? && !fixedTaskMode && |active| > 1)
            && (r.AskWhich? ==> |r.candidates| == (if |active| < 6 then |active| else 6)
                                && forall i :: 0 <= i < |r.candidates| ==> r.candidates[i] == active[i].taskId)
  {
  }

  /** The question among the first six of several active tasks. */
  function AskAmong(active: seq<TaskStore.Task>): (r: Route)
    requires |active| > 1
    ensures r.AskWhich? && 2 <= |r.candidates| <= 6 && |r.candidates| <= |active|
    ensures forall i :: 0 <= i < |r.candidates| ==> r.candidates[i] == active[i].taskId
  {
    AskWhich(TaskIds(TaskStore.Take(active, 6)))
  }

  /** `processUserMessage`'s route: a confirmed purchase first, then
      `ChooseRoute` on the tables with expired state cleared. */
  function UserMessageRoute(db: TaskStore.Tables, phone: string, text: string, ctx: Context): Route
  {
    var db1 := WithUser(db, phone, ctx.now);
    if ResumesPurchase(db1, phone, text, ctx.now) then
      var c := db1.confirmations[phone];
      Resumed(ConfirmedTask(db1, phone).value.taskId, c.resumePrompt, c.runnerKind)
    else ChooseRoute(Expired(AfterConfirming(db1, phone, text, ctx.now), phone, ctx.now), phone, text, ctx.fixedTaskMode)
  }

  /** The user's runner override, as `getUser` reports it. */
  function RunnerOverride(db: TaskStore.Tables, phone: string): Option<string>
  {
    if phone in db.users then db.users[phone].runnerOverride else None
  }

  /** The task `processUserMessage` creates when no task is active: the
      user's runner and the first 80 characters of the text as its title. */
  function CreatedTask(db: TaskStore.Tables, phone: string, text: string, ctx: Context): (t: TaskStore.Task)
    ensures t.taskId == ctx.newTaskId && t.phone == phone && Runners.IsSupported(t.runnerKind)
    ensures t.title.Some? ==> |t.title.value| <= 80 && StartsWith(text, t.title.value)
  {
    TaskStore.NewTask(ctx.newTaskId, phone, ctx.projectId, ctx.cwd,
                      ResolveRunnerForUser(RunnerOverride(db, phone), ctx.runnerSetting, ctx.runnerConfig),
                      Some(Prefix(text, 80)), ctx.now)
  }

  /** The tables once the route is taken and before `routeToTask` runs: a
      chosen selection is cleared, an active task is focused, a question
      stores its candidates until `now + ttl`, a new task is created and
      focused. */
  function Dispatched(db: TaskStore.Tables, phone: string, route: Route, text: string, ctx: Context): (r: TaskStore.Tables)
    ensures r.confirmations == db.confirmations && r.messages == db.messages && r.runs == db.runs
  {
    match route
    case BySelection(_, _) => db.(selections := db.selections - {phone})
    case ToActive(id) => WithFocus(db, phone, id, ctx.now)
    case AskWhich(c) =>
      WithUser(db, phone, ctx.now).(selections := db.selections[phone :=
        TaskStore.PendingSelection(text, c, ctx.now, ctx.now + ctx.selectionTtl)])
    case ToNewTask =>
      var w := WithUser(db, phone, ctx.now);
      WithFocus(w.(tasks := w.tasks + [CreatedTask(db, phone, text, ctx)]), phone, ctx.newTaskId, ctx.now)
    case _ => db
  }

  /** The task and message `routeToTask` is called with, if any. */
  function Target(route: Route, text: string, ctx: Context): Option<(string, string)>
  {
    match route
    case ByPrefix(id, m) => Some((id, m))
    case BySelection(id, m) => Some((id, m))
    case ToFocused(id) => Some((id, text))
    case ToActive(id) => Some((id, text))
    case ToNewTask => Some((ctx.newTaskId, text))
    case _ => None
  }

  // ---------------------------------------------------------------- routeToTask

  /** What `routeToTask` does with a message for a task. */
  datatype TaskRouting =
    | TaskNotFound(taskId: string)
    | AddedToQueue(taskId: string, message: string)
    | Orchestrate(taskId: string, message: string, forcedRunnerKind: Option<string>)

  /** `routeToTask`'s decision: a missing task or another phone's task is
      refused; a task with a queued or running run takes the message into
      its execution queue; otherwise the planner gets the trimmed message and
      the forced runner. */
  function RouteDecision(db: TaskStore.Tables, phone: string, taskId: string, message: string): (r: TaskRouting)
    ensures r.TaskNotFound? <==> TaskStore.FindTask(db.tasks, taskId).None?
                                 || TaskStore.FindTask(db.tasks, taskId).value.phone != phone
    ensures r.AddedToQueue? <==> !r.TaskNotFound? && TaskStore.ActiveRun(db.runs, taskId).Some?
    ensures r.AddedToQueue? ==> r == AddedToQueue(taskId, message)
    ensures r.Orchestrate? ==>
              r.taskId == taskId && r.message == Trim(message)
              && r.forcedRunnerKind == ForcedRunnerKind(TaskStore.FindTask(db.tasks, taskId).value.runnerKind,
                                                       RunnerOverride(db, phone))
  {
    var task := TaskStore.FindTask(db.tasks, taskId);
    if task.None? || task.value.phone != phone then TaskNotFound(taskId)
    else if TaskStore.ActiveRun(db.runs, task.value.taskId).Some? then AddedToQueue(task.value.taskId, message)
    else Orchestrate(task.value.taskId, Trim(message), ForcedRunnerKind(task.value.runnerKind, RunnerOverride(db, phone)))
  }

  /** The tables after `routeToTask`: unchanged for a task the phone does
      not own; otherwise the task is focused and the message is recorded as
      the user's, and no task or run is added. */
  function RoutedTables(db: TaskStore.Tables, phone: string, taskId: string, message: string, now: int): (r: TaskStore.Tables)
    ensures RouteDecision(db, phone, taskId, message).TaskNotFound? ==> r == db
    ensures !RouteDecision(db, phone, taskId, message).TaskNotFound? ==>
              r.messages == db.messages + [TaskStore.TaskMessage(taskId, "user", message, now)]
              && r.tasks == db.tasks && r.runs == db.runs && r.selections == db.selections
              && phone in r.users && r.users[phone].focusedTaskId == TaskStore.OrNull(Some(taskId))
  {
    var task := TaskStore.FindTask(db.tasks, taskId);
    if task.None? || task.value.phone != phone then db
    else
      var f := WithFocus(db, phone, taskId, now);
      f.(messages := f.messages + [TaskStore.TaskMessage(taskId, "user", message, now)])
  }

  /** `routeToTask(phone, taskId, message)` on the store. */
  method RouteToTask(store: TaskStore.TaskStore, phone: string, taskId: string, message: string, now: int)
    returns (outcome: TaskRouting)
    requires store.Valid()
    modifies store
    ensures store.Valid()
    ensures outcome == RouteDecision(old(store.db), phone, taskId, message)
    ensures store.db == RoutedTables(old(store.db), phone, taskId, message, now)
  {
    var task := store.GetTask(taskId);
    if task.None? || task.value.phone != phone {
      return TaskNotFound(taskId);
    }
    store.SetUserFocusedTask(phone, Some(task.value.taskId), now);
    store.InsertTaskMessage(task.value.taskId, "user", message, now);
    var activeRun := store.GetActiveRunForTask(task.value.taskId);
    if activeRun.Some? {
      return AddedToQueue(task.value.taskId, message);
    }
    var user := store.GetUser(phone);
    assert user.value.runnerOverride == RunnerOverride(old(store.db), phone);
    var forced := ForcedRunnerKind(task.value.runnerKind, user.value.runnerOverride);
    outcome := Orchestrate(task.value.taskId, Trim(message), forced);
  }

  // ---------------------------------------------------------------- processUserMessage

  /** The tables once `processUserMessage` has taken its route, before
      `routeToTask`. */
  function Staged(db: TaskStore.Tables, phone: string, text: string, ctx: Context): TaskStore.Tables
  {
    var db1 := WithUser(db, phone, ctx.now);
    if ResumesPurchase(db1, phone, text, ctx.now) then AfterConfirming(db1, phone, text, ctx.now)
    else
      var db2 := Expired(AfterConfirming(db1, phone, text, ctx.now), phone, ctx.now);
      Dispatched(db2, phone, ChooseRoute(db2, phone, text, ctx.fixedTaskMode), text, ctx)
  }

  /** The tables after `processUserMessage`. */
  function AfterUserMessage(db: TaskStore.Tables, phone: string, text: string, ctx: Context): TaskStore.Tables
  {
    var staged := Staged(db, phone, text, ctx);
    match Target(UserMessageRoute(db, phone, text, ctx), text, ctx)
    case None => staged
    case Some((id, m)) => RoutedTables(staged, phone, id, m, ctx.now)
  }

  /** What `routeToTask` decides for the message, when it is called. */
  function UserMessageOutcome(db: TaskStore.Tables, phone: string, text: string, ctx: Context): Option<TaskRouting>
  {
    var staged := Staged(db, phone, text, ctx);
    match Target(UserMessageRoute(db, phone, text, ctx), text, ctx)
    case None => None
    case Some((id, m)) => Some(RouteDecision(staged, phone, id, m))
  }

  /** `resumePendingConfirmation(phone, text)` on a live confirmation: the
      task must still exist and be the user's; either way the confirmation
      is cleared, and on success the audit line is recorded and the run to
      enqueue is returned. */
  method ResumePendingConfirmation(store: TaskStore.TaskStore, phone: string, text: string, now: int)
    returns (resumed: Option<Route>)
    requires store.Valid() && Confirming(store.db, phone, text, now)
    modifies store
    ensures store.Valid()
    ensures store.db == Resumption(old(store.db), phone, text, now)
    ensures resumed.Some? <==> ConfirmedTask(old(store.db), phone).Some?
    ensures resumed.Some? ==> resumed.value == Resumed(ConfirmedTask(old(store.db), phone).value.taskId,
                                                       old(store.db).confirmations[phone].resumePrompt,
                                                       old(store.db).confirmations[phone].runnerKind)
  {
    var pending := store.GetPendingConfirmation(phone).value;
    var task := store.GetTask(pending.taskId);
    if task.None? || task.value.phone != phone {
      store.ClearPendingConfirmation(phone);
      return None;
    }
    store.InsertTaskMessage(task.value.taskId, "system", ConfirmationAudit(text), now);
    store.ClearPendingConfirmation(phone);
    return Some(Resumed(task.value.taskId, pending.resumePrompt, pending.runnerKind));
  }

  /** The first steps of `processUserMessage`: `ensureUser`, then an
      expired purchase confirmation is cleared or a live one is resumed by a
      confirmation text, then an expired selection is cleared. */
  method Prepare(store: TaskStore.TaskStore, phone: string, text: string, ctx: Context) returns (resumed: Option<Route>)
    requires store.Valid()
    modifies store
    ensures store.Valid()
    ensures resumed.Some? <==> ResumesPurchase(WithUser(old(store.db), phone, ctx.now), phone, text, ctx.now)
    ensures resumed.Some? ==> resumed.value == UserMessageRoute(old(store.db), phone, text, ctx)
                              && store.db == Staged(old(store.db), phone, text, ctx)
    ensures resumed.None? ==>
              store.db == Expired(AfterConfirming(WithUser(old(store.db), phone, ctx.now), phone, text, ctx.now), phone, ctx.now)
  {
    store.EnsureUser(phone, ctx.now);
    var conf := store.GetPendingConfirmation(phone);
    if conf.Some? {
      if ctx.now > conf.value.expiresAt {
        store.ClearPendingConfirmation(phone);
      } else if IsPurchaseConfirmationText(text) {
        resumed := ResumePendingConfirmation(store, phone, text, ctx.now);
        if resumed.Some? {
          return;
        }
      }
    }
    resumed := None;
    var pending := store.GetPendingSelection(phone);
    if pending.Some? && ctx.now > pending.value.expiresAt {
      store.ClearPendingSelection(phone);
    }
  }

  /** The effects of a route before `routeToTask`. */
  method Dispatch(store: TaskStore.TaskStore, phone: string, route: Route, text: string, ctx: Context)
    requires store.Valid()
    requires route.ToNewTask? ==> TaskStore.FindTask(store.db.tasks, ctx.newTaskId).None?
    modifies store
    ensures store.Valid()
    ensures store.db == Dispatched(old(store.db), phone, route, text, ctx)
  {
    match route {
      case BySelection(_, _) =>
        store.ClearPendingSelection(phone);
      case ToActive(id) =>
        store.SetUserFocusedTask(phone, Some(id), ctx.now);
      case AskWhich(c) =>
        store.SetPendingSelection(phone, text, c, ctx.now + ctx.selectionTtl, ctx.now);
      case ToNewTask =>
        var user := store.GetUser(phone);
        var kind := ResolveRunnerForUser(if user.Some? then user.value.runnerOverride else None,
                                         ctx.runnerSetting, ctx.runnerConfig);
        var t := store.CreateTask(ctx.newTaskId, phone, ctx.projectId, ctx.cwd, kind, Some(Prefix(text, 80)), ctx.now);
        store.SetUserFocusedTask(phone, Some(t.taskId), ctx.now);
      case _ =>
    }
  }

  /** `processUserMessage(phone, text)` on the store; on a resumed purchase
      the route carries the run to enqueue, and the replies sent are outside
      the model. */
  method ProcessUserMessage(store: TaskStore.TaskStore, phone: string, text: string, ctx: Context)
    returns (route: Route, outcome: Option<TaskRouting>)
    requires store.Valid()
    requires TaskStore.FindTask(store.db.tasks, ctx.newTaskId).None?
    modifies store
    ensures store.Valid()
    ensures route == UserMessageRoute(old(store.db), phone, text, ctx)
    ensures outcome == UserMessageOutcome(old(store.db), phone, text, ctx)
    ensures store.db == AfterUserMessage(old(store.db), phone, text, ctx)
  {
    var resumed := Prepare(store, phone, text, ctx);
    if resumed.Some? {
      return resumed.value, None;
    }
    route := ChooseRoute(store.db, phone, text, ctx.fixedTaskMode);
    Dispatch(store, phone, route, text, ctx);
    var target := Target(route, text, ctx);
    if target.Some? {
      var o := RouteToTask(store, phone, target.value.0, target.value.1, ctx.now);
      outcome := Some(o);
    } else {
      outcome := None;
    }
  }

  // ---------------------------------------------------------------- properties of the routing

  /** The rest of the match needs a ':'. */
  lemma AfterTaskIdNeedsColon(text: string, p: nat)
    requires p <= |text| && ':' !in text
    ensures AfterTaskId(text, p).None?
  {
    var q := SpaceEnd(text, p);
    if q < |text| {
      assert text[q] in text;
    }
  }

  /** A text without ':', such as a number, is not a task prefix. */
  lemma NoColonNoPrefix(text: string)
    requires ':' !in text
    ensures ParseTaskPrefix(text).None?
  {
    assert ShortForm(text).None? by {
      if |text| >= 2 {
        AfterTaskIdNeedsColon(text, 2);
      }
    }
    assert LongForm(text).None? by {
      if StartsTaskWord(text) {
        AfterTaskIdNeedsColon(text, HexEnd(text, 5));
      }
    }
  }

  /** No confirmation phrase starts with a digit. */
  lemma DigitFirstConfirmsNothing(l: string)
    requires l != [] && IsDigit(l[0])
    ensures l !in PurchaseConfirmations
  {
    forall i | 0 <= i < |PurchaseConfirmations| ensures PurchaseConfirmations[i] != l {
      assert PurchaseConfirmations[i][0] == '/' || PurchaseConfirmations[i][0] == 'c';
    }
  }

  /** A number confirms no purchase. */
  lemma DigitsConfirmNothing(n: nat)
    ensures !IsPurchaseConfirmationText(NatToString(n))
  {
    var s := NatToString(n);
    DigitEndsConfirmNothing(s);
  }

  lemma DigitEndsConfirmNothing(s: string)
    requires s != [] && IsDigit(s[0]) && IsDigit(s[|s| - 1])
    ensures !IsPurchaseConfirmationText(s)
  {
    TrimVisibleEnds(s);
    var l := Lower(s);
    assert l[0] == s[0];
    DigitFirstConfirmsNothing(l);
  }

  /** The user's runner override survives `ensureUser` and the expiry of
      pending state. */
  lemma OverrideKept(db: TaskStore.Tables, phone: string, now: int)
    ensures RunnerOverride(Expired(WithUser(db, phone, now), phone, now), phone) == RunnerOverride(db, phone)
  {
  }

  /** Asking "which task?" leaves the question pending with its
      candidates, the original text and its expiry. */
  lemma AskStoresQuestion(db: TaskStore.Tables, phone: string, text: string, ctx: Context)
    requires UserMessageRoute(db, phone, text, ctx).AskWhich?
    ensures var r := AfterUserMessage(db, phone, text, ctx);
            phone in r.selections
            && r.selections[phone] == TaskStore.PendingSelection(text, UserMessageRoute(db, phone, text, ctx).candidates,
                                                                  ctx.now, ctx.now + ctx.selectionTtl)
  {
    var db1 := WithUser(db, phone, ctx.now);
    assert !ResumesPurchase(db1, phone, text, ctx.now);
  }

  /** A number answering a live question routes its original message to
      the candidate at that position. */
  lemma NumberAnswersQuestion(db: TaskStore.Tables, phone: string, n: nat, ctx: Context)
    requires phone in db.selections && ctx.now <= db.selections[phone].expiresAt
    requires 1 <= n <= |db.selections[phone].candidateTaskIds|
    requires db.selections[phone].candidateTaskIds[n - 1] != ""
    ensures UserMessageRoute(db, phone, NatToString(n), ctx)
            == BySelection(db.selections[phone].candidateTaskIds[n - 1], db.selections[phone].originalMessage)
  {
    var reply := NatToString(n);
    DigitsConfirmNothing(n);
    SelectionOfNumber(n);
    NoColonNoPrefix(reply);
    var db2 := Expired(WithUser(db, phone, ctx.now), phone, ctx.now);
    assert db2.selections[phone] == db.selections[phone];
  }

  /** Taking an answer clears the question. */
  lemma AnswerClearsQuestion(db: TaskStore.Tables, phone: string, text: string, ctx: Context)
    requires UserMessageRoute(db, phone, text, ctx).BySelection?
    ensures phone !in AfterUserMessage(db, phone, text, ctx).selections
  {
    var db1 := WithUser(db, phone, ctx.now);
    assert !ResumesPurchase(db1, phone, text, ctx.now);
    assert phone !in Staged(db, phone, text, ctx).selections;
  }

  /** Confirming a live purchase for one of the user's tasks resumes it:
      the route names the task with the stored prompt and runner, the
      confirmation is gone, the audit line is the last message, and nothing
      is routed to a task. */
  lemma ConfirmationResumesTask(db: TaskStore.Tables, phone: string, text: string, ctx: Context)
    requires phone in db.confirmations && ctx.now <= db.confirmations[phone].expiresAt
    requires IsPurchaseConfirmationText(text)
    requires TaskStore.FindTask(db.tasks, db.confirmations[phone].taskId).Some?
    requires TaskStore.FindTask(db.tasks, db.confirmations[phone].taskId).value.phone == phone
    ensures UserMessageRoute(db, phone, text, ctx)
            == Resumed(db.confirmations[phone].taskId, db.confirmations[phone].resumePrompt, db.confirmations[phone].runnerKind)
    ensures UserMessageOutcome(db, phone, text, ctx).None?
    ensures var r := AfterUserMessage(db, phone, text, ctx);
            phone !in r.confirmations && r.tasks == db.tasks && r.runs == db.runs && r.selections == db.selections
            && r.messages == db.messages
                             + [TaskStore.TaskMessage(db.confirmations[phone].taskId, "system", ConfirmationAudit(text), ctx.now)]
  {
    var db1 := WithUser(db, phone, ctx.now);
    assert db1.confirmations == db.confirmations && db1.tasks == db.tasks;
    assert ResumesPurchase(db1, phone, text, ctx.now);
  }

  /** A confirmation whose task is gone or belongs to someone else only
      clears the confirmation. */
  lemma StaleConfirmationTables(db: TaskStore.Tables, phone: string, text: string, now: int)
    requires phone in db.confirmations && now <= db.confirmations[phone].expiresAt
    requires IsPurchaseConfirmationText(text)
    requires TaskStore.FindTask(db.tasks, db.confirmations[phone].taskId).None?
             || TaskStore.FindTask(db.tasks, db.confirmations[phone].taskId).value.phone != phone
    ensures var cleared := WithUser(db.(confirmations := db.confirmations - {phone}), phone, now);
            !ResumesPurchase(WithUser(db, phone, now), phone, text, now)
            && AfterConfirming(WithUser(db, phone, now), phone, text, now) == cleared
            && !ResumesPurchase(cleared, phone, text, now)
            && AfterConfirming(cleared, phone, text, now) == cleared
  {
    assert ConfirmedTask(WithUser(db, phone, now), phone).None?;
  }

  /** A confirmation whose task is gone or belongs to someone else does not
      resume anything, and the message is routed as if there had been no
      confirmation. */
  lemma StaleConfirmationRoute(db: TaskStore.Tables, phone: string, text: string, ctx: Context)
    requires phone in db.confirmations && ctx.now <= db.confirmations[phone].expiresAt
    requires IsPurchaseConfirmationText(text)
    requires TaskStore.FindTask(db.tasks, db.confirmations[phone].taskId).None?
             || TaskStore.FindTask(db.tasks, db.confirmations[phone].taskId).value.phone != phone
    ensures !UserMessageRoute(db, phone, text, ctx).Resumed?
    ensures UserMessageRoute(db, phone, text, ctx)
            == UserMessageRoute(db.(confirmations := db.confirmations - {phone}), phone, text, ctx)
  {
    StaleConfirmationTables(db, phone, text, ctx.now);
  }

  /** Such a confirmation is cleared, and no message records it. */
  lemma StaleConfirmationCleared(db: TaskStore.Tables, phone: string, text: string, ctx: Context)
    requires phone in db.confirmations && ctx.now <= db.confirmations[phone].expiresAt
    requires IsPurchaseConfirmationText(text)
    requires TaskStore.FindTask(db.tasks, db.confirmations[phone].taskId).None?
             || TaskStore.FindTask(db.tasks, db.confirmations[phone].taskId).value.phone != phone
    ensures phone !in Staged(db, phone, text, ctx).confirmations
    ensures Staged(db, phone, text, ctx).messages == db.messages
  {
    StaleConfirmationTables(db, phone, text, ctx.now);
    var db1 := WithUser(db, phone, ctx.now);
    var db2 := Expired(AfterConfirming(db1, phone, text, ctx.now), phone, ctx.now);
    assert Staged(db, phone, text, ctx) == Dispatched(db2, phone, ChooseRoute(db2, phone, text, ctx.fixedTaskMode), text, ctx);
  }

  /** Answering "which task?" with the number of a candidate before the
      question expires routes the original message to that candidate, and the
      question is cleared. */
  lemma ReplyPicksCandidate(db: TaskStore.Tables, phone: string, text: string, ctx: Context, n: nat, ctx2: Context)
    requires UserMessageRoute(db, phone, text, ctx).AskWhich?
    requires 1 <= n <= |UserMessageRoute(db, phone, text, ctx).candidates|
    requires UserMessageRoute(db, phone, text, ctx).candidates[n - 1] != ""
    requires ctx2.now <= ctx.now + ctx.selectionTtl
    ensures UserMessageRoute(AfterUserMessage(db, phone, text, ctx), phone, NatToString(n), ctx2)
            == BySelection(UserMessageRoute(db, phone, text, ctx).candidates[n - 1], text)
    ensures phone !in AfterUserMessage(AfterUserMessage(db, phone, text, ctx), phone, NatToString(n), ctx2).selections
  {
    var after := AfterUserMessage(db, phone, text, ctx);
    AskStoresQuestion(db, phone, text, ctx);
    NumberAnswersQuestion(after, phone, n, ctx2);
    AnswerClearsQuestion(after, phone, NatToString(n), ctx2);
  }

  /** Runner kinds are written in lower case. */
  lemma SupportedIsLower(k: string)
    requires Runners.IsSupported(k)
    ensures Lower(k) == k && Concrete(k)
  {
    assert forall i :: 0 <= i < |k| ==> LowerChar(k[i]) == k[i];
  }

  /** Creating the new task appends it and focuses it, and touches nothing
      else the routing reads. */
  lemma NewTaskStaged(db: TaskStore.Tables, phone: string, text: string, ctx: Context)
    requires UserMessageRoute(db, phone, text, ctx) == ToNewTask
    ensures var staged := Staged(db, phone, text, ctx);
            staged.tasks == db.tasks + [CreatedTask(db, phone, text, ctx)]
            && staged.runs == db.runs && staged.messages == db.messages
            && RunnerOverride(staged, phone) == RunnerOverride(db, phone)
  {
    var db1 := WithUser(db, phone, ctx.now);
    assert !ResumesPurchase(db1, phone, text, ctx.now);
    OverrideKept(db, phone, ctx.now);
  }

  /** `routeToTask` on a task just appended, with no run, hands the trimmed
      message to the planner and records it. */
  lemma RouteToFreshTask(staged: TaskStore.Tables, before: seq<TaskStore.Task>, t: TaskStore.Task,
                         phone: string, message: string, now: int)
    requires staged.tasks == before + [t] && TaskStore.FindTask(before, t.taskId).None? && t.phone == phone
    requires TaskStore.ActiveRun(staged.runs, t.taskId).None?
    ensures RouteDecision(staged, phone, t.taskId, message)
            == Orchestrate(t.taskId, Trim(message), ForcedRunnerKind(t.runnerKind, RunnerOverride(staged, phone)))
  {
    assert TaskStore.FindTask(staged.tasks, t.taskId) == Some(t) by {
      assert forall i :: 0 <= i < |before| ==> staged.tasks[i].taskId != t.taskId;
      assert staged.tasks[|before|] == t;
    }
  }

  /** With nothing pending, no prefix, no focus and no active task, the
      message opens a new task with the user's runner, focused, holding the
      message, and the planner is asked with that runner forced. */
  lemma NewTaskTakesMessage(db: TaskStore.Tables, phone: string, text: string, ctx: Context)
    requires UserMessageRoute(db, phone, text, ctx) == ToNewTask
    requires ctx.newTaskId != "" && TaskStore.FindTask(db.tasks, ctx.newTaskId).None?
    requires TaskStore.ActiveRun(db.runs, ctx.newTaskId).None?
    ensures var kind := ResolveRunnerForUser(RunnerOverride(db, phone), ctx.runnerSetting, ctx.runnerConfig);
            var r := AfterUserMessage(db, phone, text, ctx);
            r.tasks == db.tasks + [TaskStore.NewTask(ctx.newTaskId, phone, ctx.projectId, ctx.cwd, kind,
                                                     Some(Prefix(text, 80)), ctx.now)]
            && r.messages == db.messages + [TaskStore.TaskMessage(ctx.newTaskId, "user", text, ctx.now)]
            && phone in r.users && r.users[phone].focusedTaskId == Some(ctx.newTaskId)
            && UserMessageOutcome(db, phone, text, ctx) == Some(Orchestrate(ctx.newTaskId, Trim(text), Some(kind)))
  {
    var kind := ResolveRunnerForUser(RunnerOverride(db, phone), ctx.runnerSetting, ctx.runnerConfig);
    var t := CreatedTask(db, phone, text, ctx);
    var staged := Staged(db, phone, text, ctx);
    NewTaskStaged(db, phone, text, ctx);
    RouteToFreshTask(staged, db.tasks, t, phone, text, ctx.now);
    SupportedIsLower(kind);
    assert ForcedRunnerKind(t.runnerKind, RunnerOverride(staged, phone)) == Some(kind);
  }

  /** A reply that names no candidate keeps the question pending and
      changes no task. */
  lemma InvalidSelectionKeepsQuestion(db: TaskStore.Tables, phone: string, text: string, ctx: Context)
    requires UserMessageRoute(db, phone, text, ctx) == InvalidSelection
    ensures var r := AfterUserMessage(db, phone, text, ctx);
            phone in r.selections && r.selections[phone] == db.selections[phone]
            && r.tasks == db.tasks && r.messages == db.messages
  {
  }
}
