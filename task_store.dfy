/** The persistent tables behind the bot (src/services/task-store.js): users and
    their preferences, shared memory, pending task selections and purchase
    confirmations, inbound de-duplication, tasks, task messages and runs.
    The SQLite database becomes in-memory tables held in one field, as the
    source holds its database handle in `this.db`. Timestamps are milliseconds
    handed in by the caller, and the ids the source draws at random are
    parameters. Rows are kept in insertion order, which is taken to be the
    `created_at` order. */
module TaskStore {
  import opened Wrappers
  import opened Strings

  /** The `status` column of tasks and runs. */
  datatype Status = Waiting | Queued | Running | Done | Error | Cancelled | Blocked

  function StatusName(s: Status): (name: string)
  {
    match s
    case Waiting => "waiting"
    case Queued => "queued"
    case Running => "running"
    case Done => "done"
    case Error => "error"
    case Cancelled => "cancelled"
    case Blocked => "blocked"
  }

  /** JavaScript truthiness of an optional text: present and not empty. */
  predicate Present(s: Option<string>) { s.Some? && s.value != "" }

  /** `value || null`: the empty text is stored as NULL. */
  function OrNull(s: Option<string>): (r: Option<string>)
    ensures r.Some? <==> Present(s)
    ensures r.Some? ==> r == s
  {
    if Present(s) then s else None
  }

  /** A text that `trim` leaves unchanged. */
  predicate IsTrimmed(s: string)
  {
    s == [] || (!IsSpace(s[0]) && !IsSpace(s[|s| - 1]))
  }

  datatype User = User(
    defaultProjectId: Option<string>,
    orchestratorOverride: Option<string>,
    runnerOverride: Option<string>,
    focusedTaskId: Option<string>,
    createdAt: int,
    updatedAt: int)

  datatype SharedMemory = SharedMemory(content: string, createdAt: int, updatedAt: int)

  /** The question "which task did you mean?" waiting for the user's answer. */
  datatype PendingSelection = PendingSelection(
    originalMessage: string, candidateTaskIds: seq<string>, createdAt: int, expiresAt: int)

  /** A purchase waiting for the user's confirmation. */
  datatype PendingConfirmation = PendingConfirmation(
    kind: string, taskId: string, runnerKind: string, resumePrompt: string,
    contextJson: Option<string>, createdAt: int, expiresAt: int)

  datatype Task = Task(
    taskId: string,
    phone: string,
    projectId: string,
    cwd: string,
    runnerKind: string,
    status: Status,
    title: Option<string>,
    createdAt: int,
    startedAt: Option<int>,
    endedAt: Option<int>,
    lastUpdate: Option<string>,
    lastError: Option<string>)

  datatype TaskMessage = TaskMessage(taskId: string, role: string, content: string, createdAt: int)

  /** The `command` column: the program and its arguments with the prompt hidden. */
  datatype CommandRecord = CommandRecord(command: string, args: seq<string>)

  datatype Run = Run(
    runId: string,
    taskId: string,
    runnerKind: string,
    prompt: string,
    command: CommandRecord,
    status: Status,
    blockedReason: Option<string>,
    createdAt: int,
    startedAt: Option<int>,
    endedAt: Option<int>,
    exitCode: Option<int>,
    artifactsDir: string,
    summaryText: Option<string>,
    model: Option<string>,
    sessionId: Option<string>)

  /** All tables. Users, shared memory and the two pending tables are keyed by phone. */
  datatype Tables = Tables(
    users: map<string, User>,
    memory: map<string, SharedMemory>,
    selections: map<string, PendingSelection>,
    confirmations: map<string, PendingConfirmation>,
    dedup: set<string>,
    tasks: seq<Task>,
    messages: seq<TaskMessage>,
    runs: seq<Run>)

  const EmptyTables: Tables := Tables(map[], map[], map[], map[], {}, [], [], [])

  // ---------------------------------------------------------------- users

  /** The user row after `ensureUser`: a fresh row with every preference NULL,
      or the existing row with only `updated_at` moved. */
  function TouchedUser(users: map<string, User>, phone: string, now: int): (u: User)
    ensures u.updatedAt == now
    ensures phone !in users ==>
              u.defaultProjectId.None? && u.orchestratorOverride.None? && u.runnerOverride.None?
              && u.focusedTaskId.None? && u.createdAt == now
    ensures phone in users ==>
              var old_ := users[phone];
              u.defaultProjectId == old_.defaultProjectId && u.orchestratorOverride == old_.orchestratorOverride
              && u.runnerOverride == old_.runnerOverride && u.focusedTaskId == old_.focusedTaskId
              && u.createdAt == old_.createdAt
  {
    if phone in users then users[phone].(updatedAt := now)
    else User(None, None, None, None, now, now)
  }

  // ---------------------------------------------------------------- shared memory

  /** The text `appendUserSharedMemory` stores: a first bullet, or the previous
      memory and a new bullet separated by a blank line. */
  function AppendedMemory(prev: string, t: string): (next: string)
    ensures EndsWith(next, "- " + t)
    ensures prev == "" ==> next == "- " + t
    ensures prev != "" ==> StartsWith(next, prev + "\n\n")
  {
    if prev != "" then prev + "\n\n- " + t else "- " + t
  }

  /** Appending a trimmed bullet to trimmed memory gives a text that `trim`
      leaves alone, so what `setUserSharedMemory` stores is exactly the append. */
  lemma AppendedMemoryIsTrimmed(prev: string, t: string)
    requires IsTrimmed(prev) && IsTrimmed(t) && t != ""
    ensures Trim(AppendedMemory(prev, t)) == AppendedMemory(prev, t)
    ensures IsTrimmed(AppendedMemory(prev, t))
  {
    var next := AppendedMemory(prev, t);
    assert next[|next| - 1] == t[|t| - 1];
    if prev != "" {
      assert next[0] == prev[0];
    } else {
      assert next[0] == '-';
    }
    TrimVisibleEnds(next);
  }

  /** The memory row after storing `c`: the creation time survives an update. */
  function StoredMemory(memory: map<string, SharedMemory>, phone: string, c: string, now: int): (m: SharedMemory)
    ensures m.content == c && m.updatedAt == now
    ensures m.createdAt == if phone in memory then memory[phone].createdAt else now
  {
    if phone in memory then memory[phone].(content := c, updatedAt := now)
    else SharedMemory(c, now, now)
  }

  /** Every stored memory text is trimmed. */
  predicate MemoryTrimmed(memory: map<string, SharedMemory>)
  {
    forall p :: p in memory ==> IsTrimmed(memory[p].content)
  }

  /** Storing a trimmed text keeps every memory trimmed. */
  lemma StoreKeepsTrimmed(memory: map<string, SharedMemory>, phone: string, c: string, now: int)
    requires MemoryTrimmed(memory) && IsTrimmed(c)
    ensures MemoryTrimmed(memory[phone := StoredMemory(memory, phone, c, now)])
  {
  }

  /** The memory text of a phone, or "" when it has none. */
  function MemoryText(memory: map<string, SharedMemory>, phone: string): string
  {
    if phone in memory then memory[phone].content else ""
  }

  /** The tables after `appendUserSharedMemory(phone, t)` for a trimmed `t`:
      nothing changes for an empty text; otherwise the user is touched and the
      memory holds the old memory with the bullet appended. */
  function WithAppendedMemory(db: Tables, phone: string, t: string, now: int): (db': Tables)
    ensures t == "" ==> db' == db
    ensures t != "" ==> phone in db'.memory && db'.memory[phone].content == AppendedMemory(MemoryText(db.memory, phone), t)
    ensures db'.tasks == db.tasks && db'.runs == db.runs && db'.messages == db.messages && db'.dedup == db.dedup
  {
    if t == "" then db
    else
      var next := AppendedMemory(MemoryText(db.memory, phone), t);
      db.(users := db.users[phone := TouchedUser(db.users, phone, now)],
          memory := db.memory[phone := StoredMemory(db.memory, phone, next, now)])
  }

  /** Storing the trimmed append is the same as `WithAppendedMemory`. */
  lemma AppendThenStore(db: Tables, phone: string, t: string, now: int)
    requires IsTrimmed(MemoryText(db.memory, phone)) && IsTrimmed(t) && t != ""
    ensures var next := AppendedMemory(MemoryText(db.memory, phone), t);
      WithAppendedMemory(db, phone, t, now)
      == db.(users := db.users[phone := TouchedUser(db.users, phone, now)],
             memory := db.memory[phone := StoredMemory(db.memory, phone, Trim(next), now)])
  {
    AppendedMemoryIsTrimmed(MemoryText(db.memory, phone), t);
  }

  // ---------------------------------------------------------------- dedup

  /** The de-duplication key of an inbound message. */
  function DedupKey(instanceId: string, messageId: string): (key: string)
    ensures StartsWith(key, instanceId + ":") && EndsWith(key, messageId)
  {
    instanceId + ":" + messageId
  }

  // ---------------------------------------------------------------- generic lists

  /** The elements of `s` that satisfy `keep`, in their order. */
  function Filter<T(!new)>(s: seq<T>, keep: T -> bool): (r: seq<T>)
    ensures |r| <= |s|
    ensures forall x :: x in r <==> x in s && keep(x)
  {
    if s == [] then []
    else (if keep(s[0]) then [s[0]] else []) + Filter(s[1..], keep)
  }

  /** Every position moved one place on. */
  function Shifted(p: seq<nat>): (r: seq<nat>)
    ensures |r| == |p| && forall k :: 0 <= k < |p| ==> r[k] == p[k] + 1
  {
    seq(|p|, k requires 0 <= k < |p| => p[k] + 1)
  }

  /** `p` holds the positions in `s` of the elements of `f`, increasing, and
      misses no element of `s` that `keep` accepts. */
  ghost predicate PositionsOf<T>(s: seq<T>, keep: T -> bool, f: seq<T>, p: seq<nat>)
  {
    && |p| == |f|
    && (forall k :: 0 <= k < |p| ==> p[k] < |s| && s[p[k]] == f[k])
    && (forall k, l :: 0 <= k < l < |p| ==> p[k] < p[l])
    && (forall i :: 0 <= i < |s| && keep(s[i]) ==> i in p)
  }

  /** The positions in `s` of the elements `Filter` keeps. Their existence
      means that `Filter` lists exactly the accepted elements, in the order
      of `s`. */
  ghost function KeptPositions<T(!new)>(s: seq<T>, keep: T -> bool): (p: seq<nat>)
    ensures PositionsOf(s, keep, Filter(s, keep), p)
  {
    if s == [] then []
    else
      var rest := KeptPositions(s[1..], keep);
      KeptPositionsStep(s, keep, rest);
      (if keep(s[0]) then [0] else []) + Shifted(rest)
  }

  lemma KeptPositionsStep<T(!new)>(s: seq<T>, keep: T -> bool, rest: seq<nat>)
    requires s != [] && PositionsOf(s[1..], keep, Filter(s[1..], keep), rest)
    ensures PositionsOf(s, keep, Filter(s, keep), (if keep(s[0]) then [0] else []) + Shifted(rest))
  {
    var hp: seq<nat> := if keep(s[0]) then [0] else [];
    var p := hp + Shifted(rest);
    var f1 := Filter(s[1..], keep);
    assert forall k :: 0 <= k < |rest| ==> s[1..][rest[k]] == s[rest[k] + 1];
    StepElements(s, Filter(s, keep), f1, rest, hp);
    StepIncreasing(rest, hp);
    StepCovers(s, keep, rest, hp);
  }

  lemma StepElements<T>(s: seq<T>, f: seq<T>, f1: seq<T>, rest: seq<nat>, hp: seq<nat>)
    requires s != [] && (hp == [] || hp == [0]) && (hp == [0] ==> f == [s[0]] + f1) && (hp == [] ==> f == f1)
    requires |rest| == |f1|
    requires forall k :: 0 <= k < |rest| ==> rest[k] < |s| - 1 && s[rest[k] + 1] == f1[k]
    ensures var p := hp + Shifted(rest);
      |p| == |f| && forall k :: 0 <= k < |p| ==> p[k] < |s| && s[p[k]] == f[k]
  {
    var p := hp + Shifted(rest);
    forall k | 0 <= k < |p| ensures p[k] < |s| && s[p[k]] == f[k] {
      if k >= |hp| {
        var j := k - |hp|;
        assert p[k] == rest[j] + 1 && f[k] == f1[j];
      } else {
        assert hp == [0];
      }
    }
  }

  lemma StepIncreasing(rest: seq<nat>, hp: seq<nat>)
    requires hp == [] || hp == [0]
    requires forall k, l :: 0 <= k < l < |rest| ==> rest[k] < rest[l]
    ensures var p := hp + Shifted(rest);
      forall k, l :: 0 <= k < l < |p| ==> p[k] < p[l]
  {
    var p := hp + Shifted(rest);
    forall k, l | 0 <= k < l < |p| ensures p[k] < p[l] {
      if k >= |hp| {
        assert p[k] == rest[k - |hp|] + 1 && p[l] == rest[l - |hp|] + 1;
      } else {
        assert p[l] == rest[l - 1] + 1;
      }
    }
  }

  lemma StepCovers<T>(s: seq<T>, keep: T -> bool, rest: seq<nat>, hp: seq<nat>)
    requires s != [] && hp == (if keep(s[0]) then [0] else [])
    requires forall i :: 0 <= i < |s[1..]| && keep(s[1..][i]) ==> i in rest
    ensures var p := hp + Shifted(rest);
      forall i :: 0 <= i < |s| && keep(s[i]) ==> i in p
  {
    var p := hp + Shifted(rest);
    forall i | 0 <= i < |s| && keep(s[i]) ensures i in p {
      if i == 0 {
        assert p[0] == 0;
      } else {
        assert s[1..][i - 1] == s[i];
        var k :| 0 <= k < |rest| && rest[k] == i - 1;
        assert p[|hp| + k] == i;
      }
    }
  }

  /** `ORDER BY ... DESC` over rows kept oldest first. */
  function Reverse<T>(s: seq<T>): (r: seq<T>)
    ensures |r| == |s|
    ensures forall i :: 0 <= i < |s| ==> r[i] == s[|s| - 1 - i]
  {
    if s == [] then [] else Reverse(s[1..]) + [s[0]]
  }

  /** `LIMIT n`. */
  function Take<T>(s: seq<T>, n: nat): (r: seq<T>)
    ensures |r| == if n < |s| then n else |s|
    ensures r == s[..|r|]
  {
    if n < |s| then s[..n] else s
  }

  /** Taking the first `n` of the reversed rows and reversing back keeps the
      last `n` rows in their order. */
  lemma NewestKept<T>(all: seq<T>, n: nat)
    ensures var r := Reverse(Take(Reverse(all), n));
      |r| == (if n < |all| then n else |all|) && r == all[|all| - |r|..]
  {
    var rev := Reverse(all);
    var t := Take(rev, n);
    var r := Reverse(t);
    var k := |t|;
    forall i | 0 <= i < k ensures r[i] == all[|all| - k..][i] {
      calc {
        r[i];
        t[k - 1 - i];
        { assert t == rev[..k]; }
        rev[k - 1 - i];
        all[|all| - k + i];
      }
    }
  }

  // ---------------------------------------------------------------- tasks

  /** The columns `updateTask` accepts. A missing entry leaves its column alone;
      keys outside this list are ignored by the source and cannot be expressed. */
  datatype TaskPatch = TaskPatch(
    status: Option<Status>,
    title: Option<Option<string>>,
    startedAt: Option<Option<int>>,
    endedAt: Option<Option<int>>,
    lastUpdate: Option<Option<string>>,
    lastError: Option<Option<string>>,
    runnerKind: Option<string>,
    projectId: Option<string>,
    cwd: Option<string>)

  const KeepTask: TaskPatch := TaskPatch(None, None, None, None, None, None, None, None, None)

  function Over<T>(current: T, patch: Option<T>): T
  {
    if patch.Some? then patch.value else current
  }

  /** One task row after an update: the patched columns take their new values;
      id, phone and creation time are never touched. */
  function PatchTask(t: Task, p: TaskPatch): (r: Task)
    ensures r.taskId == t.taskId && r.phone == t.phone && r.createdAt == t.createdAt
    ensures p == KeepTask ==> r == t
    ensures p.status.None? ==> r.status == t.status
    ensures p.status.Some? ==> r.status == p.status.value
    ensures p.lastError.Some? ==> r.lastError == p.lastError.value
    ensures p.lastUpdate.Some? ==> r.lastUpdate == p.lastUpdate.value
  {
    t.(status := Over(t.status, p.status), title := Over(t.title, p.title),
       startedAt := Over(t.startedAt, p.startedAt), endedAt := Over(t.endedAt, p.endedAt),
       lastUpdate := Over(t.lastUpdate, p.lastUpdate), lastError := Over(t.lastError, p.lastError),
       runnerKind := Over(t.runnerKind, p.runnerKind), projectId := Over(t.projectId, p.projectId),
       cwd := Over(t.cwd, p.cwd))
  }

  /** `UPDATE tasks SET ... WHERE task_id = id`. */
  function UpdateTaskRows(ts: seq<Task>, id: string, p: TaskPatch): (r: seq<Task>)
    ensures |r| == |ts|
    ensures forall i :: 0 <= i < |ts| ==> r[i] == if ts[i].taskId == id then PatchTask(ts[i], p) else ts[i]
  {
    if ts == [] then []
    else [if ts[0].taskId == id then PatchTask(ts[0], p) else ts[0]] + UpdateTaskRows(ts[1..], id, p)
  }

  /** An update that names no column changes no row. */
  lemma {:induction false} KeepTaskChangesNothing(ts: seq<Task>, id: string)
    ensures UpdateTaskRows(ts, id, KeepTask) == ts
  {
    assert forall i :: 0 <= i < |ts| ==> UpdateTaskRows(ts, id, KeepTask)[i] == ts[i];
  }

  predicate DistinctTaskIds(ts: seq<Task>)
  {
    forall i, j :: 0 <= i < j < |ts| ==> ts[i].taskId != ts[j].taskId
  }

  /** `SELECT * FROM tasks WHERE task_id = ?`. */
  function FindTask(ts: seq<Task>, id: string): (r: Option<Task>)
    ensures r.Some? ==> r.value in ts && r.value.taskId == id
    ensures r.None? <==> forall i :: 0 <= i < |ts| ==> ts[i].taskId != id
  {
    if ts == [] then None
    else if ts[0].taskId == id then Some(ts[0])
    else
      var r := FindTask(ts[1..], id);
      assert forall i :: 1 <= i < |ts| ==> ts[i] == ts[1..][i - 1];
      r
  }

  /** The task row created by `createTask`. */
  function NewTask(taskId: string, phone: string, projectId: string, cwd: string, runnerKind: string,
                   title: Option<string>, now: int): (t: Task)
    ensures t.taskId == taskId && t.phone == phone && t.createdAt == now
    ensures t.status == Waiting && t.lastUpdate == Some("Waiting")
    ensures t.startedAt.None? && t.endedAt.None? && t.lastError.None?
    ensures t.title.Some? <==> Present(title)
  {
    Task(taskId, phone, projectId, cwd, runnerKind, Waiting, OrNull(title), now, None, None, Some("Waiting"), None)
  }

  predicate IsActiveTask(t: Task) { t.status == Queued || t.status == Running || t.status == Waiting }

  /** The rows of one phone. */
  function OfPhone(phone: string): Task -> bool
  {
    (t: Task) => t.phone == phone
  }

  /** The queued, running and waiting rows of one phone. */
  function ActiveOfPhone(phone: string): Task -> bool
  {
    (t: Task) => t.phone == phone && IsActiveTask(t)
  }

  /** `listTasksByPhone`: the phone's `limit` newest tasks, newest first. */
  function TasksByPhone(ts: seq<Task>, phone: string, limit: nat): (r: seq<Task>)
    ensures |r| <= limit
    ensures forall t :: t in r ==> t in ts && t.phone == phone
  {
    Take(Reverse(Filter(ts, OfPhone(phone))), limit)
  }

  /** The order of `listTasksByPhone`. With `p` the positions of the phone's
      rows (increasing, and missing none), the result holds as many rows as
      the limit allows, the rows at the last of those positions, from the
      last one down: the newest tasks, newest first. */
  lemma TasksByPhoneNewestFirst(ts: seq<Task>, phone: string, limit: nat)
    ensures var r := TasksByPhone(ts, phone, limit);
      var p := KeptPositions(ts, OfPhone(phone));
      |r| == (if limit < |p| then limit else |p|)
      && forall k :: 0 <= k < |r| ==> r[k] == ts[p[|p| - 1 - k]]
  {
    var f, p := Filter(ts, OfPhone(phone)), KeptPositions(ts, OfPhone(phone));
    PositionsHold(ts, OfPhone(phone), f, p);
    TakeReversedAt(ts, f, p, limit);
    var r := TasksByPhone(ts, phone, limit);
    assert r == Take(Reverse(f), limit);
    forall k | 0 <= k < |r| ensures r[k] == ts[p[|p| - 1 - k]] {
    }
  }

  /** The facts about positions that reading them back needs. */
  lemma PositionsHold<T>(s: seq<T>, keep: T -> bool, f: seq<T>, p: seq<nat>)
    requires PositionsOf(s, keep, f, p)
    ensures |p| == |f| && forall k :: 0 <= k < |p| ==> p[k] < |s| && s[p[k]] == f[k]
  {
  }

  /** Taking from a reversed list whose entries sit at positions `p` of `s`
      reads those positions from the last one down. */
  lemma TakeReversedAt<T>(s: seq<T>, f: seq<T>, p: seq<nat>, limit: nat)
    requires |p| == |f| && forall k :: 0 <= k < |p| ==> p[k] < |s| && s[p[k]] == f[k]
    ensures var r := Take(Reverse(f), limit);
      |r| == (if limit < |p| then limit else |p|)
      && forall k :: 0 <= k < |r| ==> p[|p| - 1 - k] < |s| && r[k] == s[p[|p| - 1 - k]]
  {
    var r := Take(Reverse(f), limit);
    forall k | 0 <= k < |r| ensures p[|p| - 1 - k] < |s| && r[k] == s[p[|p| - 1 - k]] {
      assert r[k] == Reverse(f)[k] == f[|f| - 1 - k];
    }
  }

  /** `listActiveTasksByPhone`: the phone's queued, running and waiting
      tasks, newest first. */
  function ActiveTasksByPhone(ts: seq<Task>, phone: string): (r: seq<Task>)
    ensures forall t :: t in r <==> t in ts && t.phone == phone && IsActiveTask(t)
  {
    ReverseMembers(Filter(ts, ActiveOfPhone(phone)));
    Reverse(Filter(ts, ActiveOfPhone(phone)))
  }

  /** Reversing keeps the members. */
  lemma ReverseMembers<T>(f: seq<T>)
    ensures forall t :: t in Reverse(f) <==> t in f
  {
    var r := Reverse(f);
    forall t ensures t in r <==> t in f {
      if t in f {
        var i :| 0 <= i < |f| && f[i] == t;
        assert r[|f| - 1 - i] == t;
      }
    }
  }

  /** The order of `listActiveTasksByPhone`: the rows at the positions of the
      phone's active rows (increasing, and missing none), from the last one
      down, so the first is the newest active task. */
  lemma ActiveTasksNewestFirst(ts: seq<Task>, phone: string)
    ensures var r := ActiveTasksByPhone(ts, phone);
      var p := KeptPositions(ts, ActiveOfPhone(phone));
      |r| == |p| && forall k :: 0 <= k < |r| ==> r[k] == ts[p[|p| - 1 - k]]
  {
    var f, p := Filter(ts, ActiveOfPhone(phone)), KeptPositions(ts, ActiveOfPhone(phone));
    PositionsHold(ts, ActiveOfPhone(phone), f, p);
    TakeReversedAt(ts, f, p, |f|);
    var r := ActiveTasksByPhone(ts, phone);
    assert r == Take(Reverse(f), |f|);
    forall k | 0 <= k < |r| ensures r[k] == ts[p[|p| - 1 - k]] {
    }
  }

  /** SQLite's `ORDER BY started_at ASC`: a task without a start time sorts first. */
  predicate StartsNoLater(a: Task, b: Task)
  {
    a.startedAt.None? || (b.startedAt.Some? && a.startedAt.value <= b.startedAt.value)
  }

  predicate SortedByStart(ts: seq<Task>)
  {
    forall i, j :: 0 <= i < j < |ts| ==> StartsNoLater(ts[i], ts[j])
  }

  /** A task that starts no later than every task of a sorted list can go in front. */
  lemma PrependSorted(x: Task, ts: seq<Task>)
    requires SortedByStart(ts)
    requires forall y :: y in ts ==> StartsNoLater(x, y)
    ensures SortedByStart([x] + ts)
  {
    var r := [x] + ts;
    forall i, j | 0 <= i < j < |r| ensures StartsNoLater(r[i], r[j]) {
      if i == 0 {
        assert r[j] == ts[j - 1];
        assert r[j] in ts;
      } else {
        assert r[i] == ts[i - 1] && r[j] == ts[j - 1];
      }
    }
  }

  function InsertByStart(t: Task, ts: seq<Task>): (r: seq<Task>)
    requires SortedByStart(ts)
    ensures SortedByStart(r)
    ensures multiset(r) == multiset(ts) + multiset{t}
  {
    if ts == [] then [t]
    else if StartsNoLater(t, ts[0]) then
      assert forall y :: y in ts ==> StartsNoLater(t, y) by {
        forall y | y in ts ensures StartsNoLater(t, y) {
          var j :| 0 <= j < |ts| && ts[j] == y;
          if j > 0 { assert StartsNoLater(ts[0], ts[j]); }
        }
      }
      PrependSorted(t, ts);
      [t] + ts
    else
      var rest := InsertByStart(t, ts[1..]);
      assert ts == [ts[0]] + ts[1..];
      assert forall y :: y in rest ==> StartsNoLater(ts[0], y) by {
        forall y | y in rest ensures StartsNoLater(ts[0], y) {
          assert y in multiset(rest);
          if y != t {
            assert y in multiset(ts[1..]);
            var j :| 0 <= j < |ts[1..]| && ts[1..][j] == y;
            assert ts[j + 1] == y;
          }
        }
      }
      PrependSorted(ts[0], rest);
      [ts[0]] + rest
  }

  function SortByStart(ts: seq<Task>): (r: seq<Task>)
    ensures SortedByStart(r)
    ensures multiset(r) == multiset(ts)
  {
    if ts == [] then []
    else
      assert ts == [ts[0]] + ts[1..];
      InsertByStart(ts[0], SortByStart(ts[1..]))
  }

  /** `listRunningTasks`: every running task, earliest start first. */
  function RunningTasks(ts: seq<Task>): (r: seq<Task>)
    ensures SortedByStart(r)
    ensures forall t :: t in r <==> t in ts && t.status == Running
  {
    var f := Filter(ts, (t: Task) => t.status == Running);
    var r := SortByStart(f);
    assert forall t :: t in r <==> t in f by {
      forall t ensures t in r <==> t in f {
        assert t in r <==> t in multiset(r);
        assert t in f <==> t in multiset(f);
      }
    }
    r
  }

  // ---------------------------------------------------------------- task messages

  function MessagesOf(ms: seq<TaskMessage>, taskId: string): (r: seq<TaskMessage>)
    ensures forall m :: m in r <==> m in ms && m.taskId == taskId
  {
    Filter(ms, (m: TaskMessage) => m.taskId == taskId)
  }

  /** `listTaskMessages`: the task's last `limit` messages, oldest first. */
  function LastMessages(ms: seq<TaskMessage>, taskId: string, limit: nat): (r: seq<TaskMessage>)
    ensures var all := MessagesOf(ms, taskId);
      |r| == (if limit < |all| then limit else |all|) && r == all[|all| - |r|..]
    ensures forall m :: m in r ==> m in ms && m.taskId == taskId
  {
    var all := MessagesOf(ms, taskId);
    var r := Reverse(Take(Reverse(all), limit));
    NewestKept(all, limit);
    assert forall m :: m in r ==> m in all;
    r
  }

  // ---------------------------------------------------------------- runs

  /** The columns `updateRun` accepts. */
  datatype RunPatch = RunPatch(
    status: Option<Status>,
    blockedReason: Option<Option<string>>,
    startedAt: Option<Option<int>>,
    endedAt: Option<Option<int>>,
    exitCode: Option<Option<int>>,
    summaryText: Option<Option<string>>,
    command: Option<CommandRecord>,
    model: Option<Option<string>>,
    sessionId: Option<Option<string>>)

  const KeepRun: RunPatch := RunPatch(None, None, None, None, None, None, None, None, None)

  /** One run row after an update: the patched columns take their new values;
      id, task, runner, prompt, creation time and artifacts folder are never touched. */
  function PatchRun(r: Run, p: RunPatch): (r': Run)
    ensures r'.runId == r.runId && r'.taskId == r.taskId && r'.runnerKind == r.runnerKind
            && r'.prompt == r.prompt && r'.createdAt == r.createdAt && r'.artifactsDir == r.artifactsDir
    ensures p == KeepRun ==> r' == r
    ensures p.status.None? ==> r'.status == r.status
    ensures p.status.Some? ==> r'.status == p.status.value
    ensures p.model.Some? ==> r'.model == p.model.value
    ensures p.sessionId.Some? ==> r'.sessionId == p.sessionId.value
  {
    r.(status := Over(r.status, p.status), blockedReason := Over(r.blockedReason, p.blockedReason),
       startedAt := Over(r.startedAt, p.startedAt), endedAt := Over(r.endedAt, p.endedAt),
       exitCode := Over(r.exitCode, p.exitCode), summaryText := Over(r.summaryText, p.summaryText),
       command := Over(r.command, p.command), model := Over(r.model, p.model),
       sessionId := Over(r.sessionId, p.sessionId))
  }

  /** `UPDATE task_runs SET ... WHERE run_id = id`. */
  function UpdateRunRows(rs: seq<Run>, id: string, p: RunPatch): (r: seq<Run>)
    ensures |r| == |rs|
    ensures forall i :: 0 <= i < |rs| ==> r[i] == if rs[i].runId == id then PatchRun(rs[i], p) else rs[i]
  {
    if rs == [] then []
    else [if rs[0].runId == id then PatchRun(rs[0], p) else rs[0]] + UpdateRunRows(rs[1..], id, p)
  }

  lemma {:induction false} KeepRunChangesNothing(rs: seq<Run>, id: string)
    ensures UpdateRunRows(rs, id, KeepRun) == rs
  {
    assert forall i :: 0 <= i < |rs| ==> UpdateRunRows(rs, id, KeepRun)[i] == rs[i];
  }

  predicate DistinctRunIds(rs: seq<Run>)
  {
    forall i, j :: 0 <= i < j < |rs| ==> rs[i].runId != rs[j].runId
  }

  function FindRun(rs: seq<Run>, id: string): (r: Option<Run>)
    ensures r.Some? ==> r.value in rs && r.value.runId == id
    ensures r.None? <==> forall i :: 0 <= i < |rs| ==> rs[i].runId != id
  {
    if rs == [] then None
    else if rs[0].runId == id then Some(rs[0])
    else
      var r := FindRun(rs[1..], id);
      assert forall i :: 1 <= i < |rs| ==> rs[i] == rs[1..][i - 1];
      r
  }

  /** The run row created by `createRunWithId`. */
  function NewRun(runId: string, taskId: string, runnerKind: string, prompt: string, command: CommandRecord,
                  artifactsDir: string, status: Status, now: int): (r: Run)
    ensures r.runId == runId && r.taskId == taskId && r.status == status && r.createdAt == now
    ensures r.blockedReason.None? && r.startedAt.None? && r.endedAt.None? && r.exitCode.None?
    ensures r.summaryText.None? && r.model.None? && r.sessionId.None?
  {
    Run(runId, taskId, runnerKind, prompt, command, status, None, now, None, None, None, artifactsDir, None, None, None)
  }

  predicate ActiveFor(r: Run, taskId: string)
  {
    r.taskId == taskId && (r.status == Queued || r.status == Running)
  }

  /** Index of the newest queued or running run of a task, or -1. */
  function ActiveRunIndex(rs: seq<Run>, taskId: string): (k: int)
    ensures -1 <= k < |rs|
    ensures k >= 0 ==> ActiveFor(rs[k], taskId)
    ensures forall j :: k < j < |rs| ==> !ActiveFor(rs[j], taskId)
  {
    if rs == [] then -1
    else if ActiveFor(rs[|rs| - 1], taskId) then |rs| - 1
    else ActiveRunIndex(rs[..|rs| - 1], taskId)
  }

  /** `getActiveRunForTask`: the newest queued or running run of the task. */
  function ActiveRun(rs: seq<Run>, taskId: string): (r: Option<Run>)
    ensures r.None? <==> forall j :: 0 <= j < |rs| ==> !ActiveFor(rs[j], taskId)
    ensures r.Some? ==> ActiveFor(r.value, taskId) && r.value in rs
  {
    var k := ActiveRunIndex(rs, taskId);
    if k < 0 then None else Some(rs[k])
  }

  predicate IsQueued(r: Run) { r.status == Queued }

  predicate IsRunning(r: Run) { r.status == Running }

  /** The queued runs, oldest first. */
  function QueuedRuns(rs: seq<Run>): (q: seq<Run>)
    ensures forall r :: r in q <==> r in rs && r.status == Queued
  {
    Filter(rs, IsQueued)
  }

  /** The order of `listQueuedRuns`: the rows at the positions of the queued
      rows (increasing, and missing none), in table order, which is creation
      order. */
  lemma QueuedRunsOldestFirst(rs: seq<Run>)
    ensures var q := QueuedRuns(rs);
      var p := KeptPositions(rs, IsQueued);
      |q| == |p| && forall k :: 0 <= k < |q| ==> q[k] == rs[p[k]]
  {
    var p := KeptPositions(rs, IsQueued);
    assert PositionsOf(rs, IsQueued, QueuedRuns(rs), p);
  }

  /** `countRunningRuns`. */
  function RunningCount(rs: seq<Run>): (n: nat)
    ensures n <= |rs|
    ensures n == 0 <==> forall r :: r in rs ==> r.status != Running
  {
    var f := Filter(rs, IsRunning);
    assert f == [] <==> forall r :: r in rs ==> r.status != Running by {
      if f != [] { assert f[0] in f; }
    }
    |f|
  }

  /** Updating a run that is not in the table changes nothing. */
  lemma {:induction false} UpdateAbsentRun(rs: seq<Run>, id: string, p: RunPatch)
    requires forall i :: 0 <= i < |rs| ==> rs[i].runId != id
    ensures UpdateRunRows(rs, id, p) == rs
  {
    assert forall i :: 0 <= i < |rs| ==> UpdateRunRows(rs, id, p)[i] == rs[i];
  }

  /** Taking the oldest queued run out of the queue leaves the rest of the
      queue, in order: this is what makes the scheduler first in, first out. */
  lemma {:induction false} LeavingQueueHead(rs: seq<Run>, id: string, p: RunPatch)
    requires DistinctRunIds(rs)
    requires QueuedRuns(rs) != [] && QueuedRuns(rs)[0].runId == id
    requires p.status.Some? && p.status.value != Queued
    ensures QueuedRuns(UpdateRunRows(rs, id, p)) == QueuedRuns(rs)[1..]
    decreases |rs|
  {
    DistinctTail(rs);
    QueuedCons(rs);
    if IsQueued(rs[0]) {
      LeaveQueuedHead(rs, id, p);
    } else {
      var q0 := QueuedRuns(rs)[0];
      assert q0 in QueuedRuns(rs[1..]);
      var j :| 0 <= j < |rs[1..]| && rs[1..][j] == q0;
      LeavingQueueHead(rs[1..], id, p);
      LeaveBehindHead(rs, id, p);
    }
  }

  /** The head row is the queue head: patching it drops it from the queue. */
  lemma LeaveQueuedHead(rs: seq<Run>, id: string, p: RunPatch)
    requires rs != [] && IsQueued(rs[0]) && rs[0].runId == id
    requires forall i :: 0 <= i < |rs[1..]| ==> rs[1..][i].runId != id
    requires p.status.Some? && p.status.value != Queued
    ensures QueuedRuns(UpdateRunRows(rs, id, p)) == QueuedRuns(rs)[1..]
  {
    var rs' := UpdateRunRows(rs, id, p);
    UpdateRowsTail(rs, id, p);
    UpdateAbsentRun(rs[1..], id, p);
    QueuedCons(rs);
    QueuedCons(rs');
  }

  /** The head row is not queued and not the patched one: it stays in front
      of a queue that loses its head. */
  lemma LeaveBehindHead(rs: seq<Run>, id: string, p: RunPatch)
    requires rs != [] && !IsQueued(rs[0]) && rs[0].runId != id && QueuedRuns(rs[1..]) != []
    requires QueuedRuns(UpdateRunRows(rs[1..], id, p)) == QueuedRuns(rs[1..])[1..]
    ensures QueuedRuns(UpdateRunRows(rs, id, p)) == QueuedRuns(rs)[1..]
  {
    var rs' := UpdateRunRows(rs, id, p);
    UpdateRowsTail(rs, id, p);
    QueuedCons(rs);
    QueuedCons(rs');
  }

  /** The rest of a table with distinct ids has distinct ids, none of them the first row's. */
  lemma DistinctTail(rs: seq<Run>)
    requires rs != [] && DistinctRunIds(rs)
    ensures DistinctRunIds(rs[1..])
    ensures forall i :: 0 <= i < |rs[1..]| ==> rs[1..][i].runId != rs[0].runId
  {
    forall i | 0 <= i < |rs[1..]| ensures rs[1..][i].runId != rs[0].runId {
      assert rs[1..][i] == rs[i + 1];
    }
    forall i, j | 0 <= i < j < |rs| - 1 ensures rs[1..][i].runId != rs[1..][j].runId {
      assert rs[1..][i] == rs[i + 1] && rs[1..][j] == rs[j + 1];
    }
  }

  /** The first row of an update, and the update of the rest. */
  lemma UpdateRowsTail(rs: seq<Run>, id: string, p: RunPatch)
    requires rs != []
    ensures UpdateRunRows(rs, id, p)[0] == if rs[0].runId == id then PatchRun(rs[0], p) else rs[0]
    ensures UpdateRunRows(rs, id, p)[1..] == UpdateRunRows(rs[1..], id, p)
  {
    var t := UpdateRunRows(rs[1..], id, p);
    assert UpdateRunRows(rs, id, p) == [if rs[0].runId == id then PatchRun(rs[0], p) else rs[0]] + t;
  }

  /** The queue of a table is its first row when queued, then the queue of the rest. */
  lemma QueuedCons(rs: seq<Run>)
    requires rs != []
    ensures QueuedRuns(rs) == (if IsQueued(rs[0]) then [rs[0]] else []) + QueuedRuns(rs[1..])
  {
  }

  /** What restart recovery does to one run. */
  function RecoverRun(r: Run, now: int): (r': Run)
    ensures r.status != Running ==> r' == r
    ensures r.status == Running ==>
              r'.status == Error && r'.endedAt == Some(now) && r'.exitCode == Some(-1)
              && r'.summaryText == Some(r.summaryText.GetOr("Orchestrator restarted while run was active."))
              && r'.runId == r.runId && r'.taskId == r.taskId
  {
    if r.status == Running then
      r.(status := Error, endedAt := Some(now), exitCode := Some(-1),
         summaryText := Some(r.summaryText.GetOr("Orchestrator restarted while run was active.")))
    else r
  }

  /** What restart recovery does to one task. */
  function RecoverTask(t: Task, now: int): (t': Task)
    ensures t.status != Running ==> t' == t
    ensures t.status == Running ==>
              t'.status == Error && t'.endedAt == Some(now)
              && t'.lastError == Some(t.lastError.GetOr("Orchestrator restarted while task was running."))
              && t'.taskId == t.taskId
  {
    if t.status == Running then
      t.(status := Error, endedAt := Some(now),
         lastError := Some(t.lastError.GetOr("Orchestrator restarted while task was running.")))
    else t
  }

  /** Restart recovery applied to every run. */
  function RecoveredRuns(rs: seq<Run>, now: int): (rs': seq<Run>)
    ensures |rs'| == |rs| && forall i :: 0 <= i < |rs| ==> rs'[i] == RecoverRun(rs[i], now)
  {
    seq(|rs|, i requires 0 <= i < |rs| => RecoverRun(rs[i], now))
  }

  /** Restart recovery applied to every task. */
  function RecoveredTasks(ts: seq<Task>, now: int): (ts': seq<Task>)
    ensures |ts'| == |ts| && forall i :: 0 <= i < |ts| ==> ts'[i] == RecoverTask(ts[i], now)
  {
    seq(|ts|, i requires 0 <= i < |ts| => RecoverTask(ts[i], now))
  }

  /** After recovery no run is running, every formerly running run is an
      error, and every other run is untouched. */
  lemma RecoveryStopsEveryRun(rs: seq<Run>, now: int)
    ensures var rs' := RecoveredRuns(rs, now);
      RunningCount(rs') == 0
      && (forall i :: 0 <= i < |rs| && rs[i].status == Running ==> rs'[i].status == Error)
      && (forall i :: 0 <= i < |rs| && rs[i].status != Running ==> rs'[i] == rs[i])
  {
    var rs' := RecoveredRuns(rs, now);
    forall r | r in rs' ensures r.status != Running {
      var i :| 0 <= i < |rs'| && rs'[i] == r;
    }
  }

  /** Recovery keeps every id where it was. */
  lemma RecoveryKeepsIds(rs: seq<Run>, ts: seq<Task>, now: int)
    requires DistinctRunIds(rs) && DistinctTaskIds(ts)
    ensures DistinctRunIds(RecoveredRuns(rs, now)) && DistinctTaskIds(RecoveredTasks(ts, now))
  {
  }

  /** The store. Its one field holds every table, as the source holds its
      database handle. */
  class TaskStore {
    var db: Tables

    /** Ids are unique and stored shared memory is always trimmed. */
    predicate Valid()
      reads this
    {
      DistinctTaskIds(db.tasks) && DistinctRunIds(db.runs)
      && MemoryTrimmed(db.memory)
    }

    constructor ()
      ensures db == EmptyTables && Valid()
    {
      db := EmptyTables;
    }

    /** `ensureUser`. */
    method EnsureUser(phone: string, now: int)
      requires Valid()
      modifies this
      ensures Valid()
      ensures db == old(db).(users := old(db).users[phone := TouchedUser(old(db).users, phone, now)])
    {
      db := db.(users := db.users[phone := TouchedUser(db.users, phone, now)]);
    }

    function GetUser(phone: string): Option<User>
      reads this
    {
      if phone in db.users then Some(db.users[phone]) else None
    }

    function GetUserSharedMemory(phone: string): Option<SharedMemory>
      reads this
    {
      if phone in db.memory then Some(db.memory[phone]) else None
    }

    /** `setUserSharedMemory`: stores the trimmed content. */
    method SetUserSharedMemory(phone: string, content: string, now: int)
      requires Valid()
      modifies this
      ensures Valid()
      ensures db == old(db).(users := old(db).users[phone := TouchedUser(old(db).users, phone, now)],
                             memory := old(db).memory[phone := StoredMemory(old(db).memory, phone, Trim(content), now)])
    {
      EnsureUser(phone, now);
      var c := Trim(content);
      StoreKeepsTrimmed(db.memory, phone, c, now);
      db := db.(memory := db.memory[phone := StoredMemory(db.memory, phone, c, now)]);
    }

    /** `appendUserSharedMemory`: a blank text changes nothing; otherwise the
        memory becomes exactly `AppendedMemory` of the old memory and the trimmed text. */
    method AppendUserSharedMemory(phone: string, text: string, now: int)
      requires Valid()
      modifies this
      ensures Valid()
      ensures db == WithAppendedMemory(old(db), phone, Trim(text), now)
    {
      var t := Trim(text);
      if t == "" {
        return;
      }
      var prev := MemoryText(db.memory, phone);
      var next := if prev != "" then prev + "\n\n- " + t else "- " + t;
      assert next == AppendedMemory(prev, t);
      assert IsTrimmed(prev) && IsTrimmed(t);
      AppendThenStore(db, phone, t, now);
      SetUserSharedMemory(phone, next, now);
    }

    /** `clearUserSharedMemory`. */
    method ClearUserSharedMemory(phone: string)
      requires Valid()
      modifies this
      ensures Valid()
      ensures db == old(db).(memory := old(db).memory - {phone})
    {
      db := db.(memory := db.memory - {phone});
    }

    /** `setUserDefaultProject`: an empty id clears the preference. */
    method SetUserDefaultProject(phone: string, projectId: Option<string>, now: int)
      requires Valid()
      modifies this
      ensures Valid()
      ensures db == old(db).(users := old(db).users[phone :=
                TouchedUser(old(db).users, phone, now).(defaultProjectId := OrNull(projectId))])
    {
      EnsureUser(phone, now);
      db := db.(users := db.users[phone := db.users[phone].(defaultProjectId := OrNull(projectId), updatedAt := now)]);
    }

    /** `setUserRunnerOverride`: an empty kind clears the override. */
    method SetUserRunnerOverride(phone: string, runnerKind: Option<string>, now: int)
      requires Valid()
      modifies this
      ensures Valid()
      ensures db == old(db).(users := old(db).users[phone :=
                TouchedUser(old(db).users, phone, now).(runnerOverride := OrNull(runnerKind))])
    {
      EnsureUser(phone, now);
      db := db.(users := db.users[phone := db.users[phone].(runnerOverride := OrNull(runnerKind), updatedAt := now)]);
    }

    /** `setUserOrchestratorOverride`: an empty provider clears the override. */
    method SetUserOrchestratorOverride(phone: string, provider: Option<string>, now: int)
      requires Valid()
      modifies this
      ensures Valid()
      ensures db == old(db).(users := old(db).users[phone :=
                TouchedUser(old(db).users, phone, now).(orchestratorOverride := OrNull(provider))])
    {
      EnsureUser(phone, now);
      db := db.(users := db.users[phone := db.users[phone].(orchestratorOverride := OrNull(provider), updatedAt := now)]);
    }

    /** `setUserFocusedTask`: an empty id clears the focus. */
    method SetUserFocusedTask(phone: string, taskId: Option<string>, now: int)
      requires Valid()
      modifies this
      ensures Valid()
      ensures db == old(db).(users := old(db).users[phone :=
                TouchedUser(old(db).users, phone, now).(focusedTaskId := OrNull(taskId))])
    {
      EnsureUser(phone, now);
      db := db.(users := db.users[phone := db.users[phone].(focusedTaskId := OrNull(taskId), updatedAt := now)]);
    }

    function GetPendingSelection(phone: string): Option<PendingSelection>
      reads this
    {
      if phone in db.selections then Some(db.selections[phone]) else None
    }

    /** `setPendingSelection`: an upsert keyed by phone; the latest write wins whole. */
    method SetPendingSelection(phone: string, originalMessage: string, candidateTaskIds: seq<string>,
                               expiresAt: int, now: int)
      requires Valid()
      modifies this
      ensures Valid()
      ensures db == old(db).(users := old(db).users[phone := TouchedUser(old(db).users, phone, now)],
                             selections := old(db).selections[phone :=
                               PendingSelection(originalMessage, candidateTaskIds, now, expiresAt)])
    {
      EnsureUser(phone, now);
      db := db.(selections := db.selections[phone := PendingSelection(originalMessage, candidateTaskIds, now, expiresAt)]);
    }

    method ClearPendingSelection(phone: string)
      requires Valid()
      modifies this
      ensures Valid()
      ensures db == old(db).(selections := old(db).selections - {phone})
    {
      db := db.(selections := db.selections - {phone});
    }

    function GetPendingConfirmation(phone: string): Option<PendingConfirmation>
      reads this
    {
      if phone in db.confirmations then Some(db.confirmations[phone]) else None
    }

    /** `setPendingConfirmation`: an upsert keyed by phone; a missing kind is
        stored as 'unknown' and an empty context as NULL. */
    method SetPendingConfirmation(phone: string, kind: Option<string>, taskId: string, runnerKind: string,
                                  resumePrompt: string, contextJson: Option<string>, expiresAt: int, now: int)
      requires Valid()
      modifies this
      ensures Valid()
      ensures db == old(db).(users := old(db).users[phone := TouchedUser(old(db).users, phone, now)],
                             confirmations := old(db).confirmations[phone :=
                               PendingConfirmation(if Present(kind) then kind.value else "unknown", taskId, runnerKind,
                                                   resumePrompt, OrNull(contextJson), now, expiresAt)])
    {
      EnsureUser(phone, now);
      var k := if Present(kind) then kind.value else "unknown";
      db := db.(confirmations := db.confirmations[phone :=
                  PendingConfirmation(k, taskId, runnerKind, resumePrompt, OrNull(contextJson), now, expiresAt)]);
    }

    method ClearPendingConfirmation(phone: string)
      requires Valid()
      modifies this
      ensures Valid()
      ensures db == old(db).(confirmations := old(db).confirmations - {phone})
    {
      db := db.(confirmations := db.confirmations - {phone});
    }

    /** `markInboundMessageProcessed`: true for a message without both ids;
        otherwise true exactly when its key was not yet recorded, and the key
        is recorded afterwards, so a repeated delivery answers false. */
    method MarkInboundMessageProcessed(instanceId: Option<string>, messageId: Option<string>)
      returns (accepted: bool)
      requires Valid()
      modifies this
      ensures Valid()
      ensures !Present(instanceId) || !Present(messageId) ==> accepted && db == old(db)
      ensures Present(instanceId) && Present(messageId) ==>
                var key := DedupKey(instanceId.value, messageId.value);
                (accepted <==> key !in old(db).dedup)
                && db == old(db).(dedup := old(db).dedup + {key})
    {
      if !Present(instanceId) || !Present(messageId) {
        return true;
      }
      var key := DedupKey(instanceId.value, messageId.value);
      accepted := key !in db.dedup;
      db := db.(dedup := db.dedup + {key});
    }

    /** `createTask`: the new row is 'waiting', last update 'Waiting', not started. */
    method CreateTask(taskId: string, phone: string, projectId: string, cwd: string, runnerKind: string,
                      title: Option<string>, now: int) returns (t: Task)
      requires Valid()
      requires FindTask(db.tasks, taskId).None?
      modifies this
      ensures Valid()
      ensures t == NewTask(taskId, phone, projectId, cwd, runnerKind, title, now)
      ensures db == old(db).(users := old(db).users[phone := TouchedUser(old(db).users, phone, now)],
                             tasks := old(db).tasks + [t])
      ensures FindTask(db.tasks, taskId) == Some(t)
    {
      EnsureUser(phone, now);
      t := NewTask(taskId, phone, projectId, cwd, runnerKind, title, now);
      db := db.(tasks := db.tasks + [t]);
      assert FindTask(db.tasks, taskId).Some? by {
        assert db.tasks[|db.tasks| - 1].taskId == taskId;
      }
    }

    function GetTask(taskId: string): Option<Task>
      reads this
    {
      FindTask(db.tasks, taskId)
    }

    function ListTasksByPhone(phone: string, limit: nat): seq<Task>
      reads this
    {
      TasksByPhone(db.tasks, phone, limit)
    }

    function ListActiveTasksByPhone(phone: string): seq<Task>
      reads this
    {
      ActiveTasksByPhone(db.tasks, phone)
    }

    function ListRunningTasks(): seq<Task>
      reads this
    {
      RunningTasks(db.tasks)
    }

    /** `updateTask`: only the named columns of that task change; an update
        naming no column is a no-op. */
    method UpdateTask(taskId: string, p: TaskPatch)
      requires Valid()
      modifies this
      ensures Valid()
      ensures db == old(db).(tasks := UpdateTaskRows(old(db).tasks, taskId, p))
    {
      if p == KeepTask {
        KeepTaskChangesNothing(db.tasks, taskId);
        return;
      }
      db := db.(tasks := UpdateTaskRows(db.tasks, taskId, p));
    }

    method InsertTaskMessage(taskId: string, role: string, content: string, now: int)
      requires Valid()
      modifies this
      ensures Valid()
      ensures db == old(db).(messages := old(db).messages + [TaskMessage(taskId, role, content, now)])
    {
      db := db.(messages := db.messages + [TaskMessage(taskId, role, content, now)]);
    }

    function ListTaskMessages(taskId: string, limit: nat): seq<TaskMessage>
      reads this
    {
      LastMessages(db.messages, taskId, limit)
    }

    function GetActiveRunForTask(taskId: string): Option<Run>
      reads this
    {
      ActiveRun(db.runs, taskId)
    }

    /** `createRunWithId`. */
    method CreateRunWithId(runId: string, taskId: string, runnerKind: string, prompt: string,
                           command: CommandRecord, artifactsDir: string, status: Status, now: int)
      returns (r: Run)
      requires Valid()
      requires FindRun(db.runs, runId).None?
      modifies this
      ensures Valid()
      ensures r == NewRun(runId, taskId, runnerKind, prompt, command, artifactsDir, status, now)
      ensures db == old(db).(runs := old(db).runs + [r])
    {
      r := NewRun(runId, taskId, runnerKind, prompt, command, artifactsDir, status, now);
      db := db.(runs := db.runs + [r]);
    }

    function GetRun(runId: string): Option<Run>
      reads this
    {
      FindRun(db.runs, runId)
    }

    function ListQueuedRuns(limit: nat): seq<Run>
      reads this
    {
      Take(QueuedRuns(db.runs), limit)
    }

    function CountRunningRuns(): nat
      reads this
    {
      RunningCount(db.runs)
    }

    /** `updateRun`: only the named columns of that run change; an update
        naming no column is a no-op. */
    method UpdateRun(runId: string, p: RunPatch)
      requires Valid()
      modifies this
      ensures Valid()
      ensures db == old(db).(runs := UpdateRunRows(old(db).runs, runId, p))
    {
      if p == KeepRun {
        KeepRunChangesNothing(db.runs, runId);
        return;
      }
      db := db.(runs := UpdateRunRows(db.runs, runId, p));
    }

    /** `markOrphanedRunningRunsAsError`: startup recovery of rows left running. */
    method MarkOrphanedRunningRunsAsError(now: int)
      requires Valid()
      modifies this
      ensures Valid()
      ensures db == old(db).(runs := RecoveredRuns(old(db).runs, now), tasks := RecoveredTasks(old(db).tasks, now))
      ensures RunningCount(db.runs) == 0
    {
      RecoveryStopsEveryRun(db.runs, now);
      RecoveryKeepsIds(db.runs, db.tasks, now);
      db := db.(runs := RecoveredRuns(db.runs, now), tasks := RecoveredTasks(db.tasks, now));
    }
  }
}
