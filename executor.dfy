/** The run executor (src/services/executor.js): queues runs for tasks, starts
    the oldest queued runs while fewer than `maxParallel` are running, follows
    each run's output stream, finalises a run exactly once when its process
    fails to start or exits, cancels runs and sends periodic progress reports.

    The subprocess is not run here: its events (`onStdoutLine`, `onStderrLine`,
    `error`, `close`) are methods called with the event's data, the clock is a
    `now` parameter, and the files the close handler reads arrive in
    `CloseInputs`. Chat messages go to `outbox`, signals to `signals`. */
module Executor {
  import opened Wrappers
  import opened Strings
  import opened Seqs
  import opened Json
  import opened TokenMeter
  import opened TextUtils
  import opened RunnerCommon
  import opened TaskStore
  import opened ExecutorLogic
  import Runners
  import CodexCli

  /** What the close handler learns from outside the stream: the exit code and
      signal, the summary files (None when unreadable), the runner's
      `purchase_context` as pretty and compact JSON text, and the item the
      task's execution queue hands out when the run drains it. */
  datatype CloseInputs = CloseInputs(
    code: Option<int>,
    signal: Option<string>,
    lastFile: Option<string>,
    lastTxt: Option<string>,
    contextPretty: string,
    contextJson: string,
    nextItem: Option<ExecItem>)

  /** The rows after the close handler. */
  function ClosedTables(db: Tables, s: Stream, st: Status, summary: string, inp: CloseInputs, now: int): Tables
  {
    var rows := ClosedRows(db, s, st, summary, now, inp.code.GetOr(-1));
    if AsksConfirmation(st, s) then
      rows.(users := rows.users[s.phone := TouchedUser(rows.users, s.phone, now)],
            confirmations := rows.confirmations[s.phone := CloseConfirmation(s, inp, now)])
    else rows
  }

  /** Closing a run keeps every run row's id in place. */
  lemma ClosedKeepsRunIds(db: Tables, s: Stream, st: Status, summary: string, inp: CloseInputs, now: int)
    ensures SameRunKeys(db.runs, ClosedTables(db, s, st, summary, inp, now).runs)
  {
    var exitCode := inp.code.GetOr(-1);
    var rs := UpdateRunRows(db.runs, s.runId, RunClosePatch(st, s.blockedReason, now, exitCode, summary));
    assert ClosedTables(db, s, st, summary, inp, now).runs == ClosedRows(db, s, st, summary, now, exitCode).runs == rs;
  }

  /** Rows with the same ids in the same places answer the same id lookups. */
  lemma SameIdsSameAbsence(a: seq<Run>, b: seq<Run>, id: string)
    requires SameRunKeys(a, b)
    ensures FindRun(a, id).None? <==> FindRun(b, id).None?
  {
  }

  /** The run row, the stored summary and the task row of a close. */
  function ClosedRows(db: Tables, s: Stream, st: Status, summary: string, now: int, exitCode: int): Tables
  {
    db.(runs := UpdateRunRows(db.runs, s.runId, RunClosePatch(st, s.blockedReason, now, exitCode, summary)),
        messages := db.messages + SummaryMessages(s, summary, now),
        tasks := UpdateTaskRows(db.tasks, s.taskId, TaskClosePatch(st, s.blockedReason, now, exitCode)))
  }

  /** The purchase confirmation a blocked run leaves, valid for ten minutes. */
  function CloseConfirmation(s: Stream, inp: CloseInputs, now: int): PendingConfirmation
  {
    PendingConfirmation(PurchaseConfirmation, s.taskId, s.runnerKind, ResumePrompt(inp.contextPretty),
                        OrNull(Some(inp.contextJson)), now, now + ConfirmationTtlMs)
  }

  /** The one message the close handler sends. */
  function CloseMessage(s: Stream, st: Status, summary: string, inp: CloseInputs): Outgoing
  {
    if AsksConfirmation(st, s) then Outgoing(s.phone, ConfirmationNeeded(s.projectId, s.taskId))
    else Outgoing(s.phone, CloseNotice(st, s, summary, inp.code.GetOr(-1)))
  }

  /** The token usage event the close handler records. */
  function CloseUsage(s: Stream, summary: string): UsageEvent
  {
    UsageEvent(s.phone, s.taskId, s.runId, s.runnerKind, OrNull(s.model),
               RunUsage(s.usage, s.prompt, summary, s.assistantBuffer), ProviderUsage(s.usage).None?)
  }

  /** The summary a finished run reports. */
  function CloseSummary(s: Stream, inp: CloseInputs): string
  {
    ReadSummary(s.runner == Runners.Codex, s.lastPath, s.finalResult, s.assistantBuffer, inp.lastFile, inp.lastTxt)
  }

  function CloseStatus(s: Stream, inp: CloseInputs): Status
  {
    TerminalStatus(inp.signal, s.blockedReason, inp.code.GetOr(-1))
  }

  /** The task message a finished run stores: its trimmed summary, capped. */
  function SummaryMessages(s: Stream, summary: string, now: int): (ms: seq<TaskMessage>)
    ensures |ms| <= 1
    ensures ms != [] <==> summary != ""
  {
    if summary != "" then [TaskMessage(s.taskId, "assistant", Prefix(Trim(summary), MaxStoredSummaryChars), now)] else []
  }

  /** A purchase confirmation is asked for instead of a notice. */
  predicate AsksConfirmation(st: Status, s: Stream)
  {
    st == Blocked && s.blockedReason == Some(PurchaseConfirmation)
  }

  /** `b` holds the rows of `a`, with their keys, followed by one new run for
      the given task, prompt and runner kind; rows that were not queued are
      untouched. */
  predicate AddedRun(a: seq<Run>, b: seq<Run>, runId: string, taskId: string, prompt: string, runnerKind: string)
  {
    |b| == |a| + 1 && SameRunKeys(a, b[..|a|]) && KeepsSettledRuns(a, b)
    && b[|a|].runId == runId && b[|a|].taskId == taskId && b[|a|].prompt == prompt && b[|a|].runnerKind == runnerKind
  }

  lemma AddedThenKept(a: seq<Run>, b: seq<Run>, c: seq<Run>, run: Run)
    requires b == a + [run] && SameRunKeys(b, c) && KeepsSettledRuns(a, c)
    ensures AddedRun(a, c, run.runId, run.taskId, run.prompt, run.runnerKind)
  {
    assert b[..|a|] == a;
  }

  /** The message a close's drain step resumes: the task (as it now stands),
      the queue item's id, the prompt (the user's shared memory ahead of the
      message) and the runner kind (the task's, else the finished run's). */
  datatype Resume = Resume(task: Task, itemId: string, prompt: string, runnerKind: string)

  /** What the drain step resumes: nothing when the queue handed out no
      message, or the task is gone or now belongs to another user. */
  function NextResume(db: Tables, s: Stream, nextItem: Option<ExecItem>): (r: Option<Resume>)
    ensures r.Some? ==>
      (nextItem.Some? && Present(nextItem.value.content)
       && FindTask(db.tasks, s.taskId) == Some(r.value.task) && r.value.task.phone == s.phone
       && r.value.itemId == nextItem.value.id
       && r.value.prompt == QueuedPrompt(MemoryText(db.memory, s.phone), nextItem.value.content.value)
       && r.value.runnerKind == (if r.value.task.runnerKind != "" then r.value.task.runnerKind else s.runnerKind))
    ensures r.None? <==>
      (nextItem.None? || !Present(nextItem.value.content)
       || FindTask(db.tasks, s.taskId).None? || FindTask(db.tasks, s.taskId).value.phone != s.phone)
  {
    if nextItem.Some? && Present(nextItem.value.content) then
      match FindTask(db.tasks, s.taskId)
      case Some(latest) =>
        if latest.phone == s.phone then
          Some(Resume(latest, nextItem.value.id, QueuedPrompt(MemoryText(db.memory, s.phone), nextItem.value.content.value),
                      if latest.runnerKind != "" then latest.runnerKind else s.runnerKind))
        else None
      case None => None
    else None
  }

  /** The "resuming" notice, sent only when a message is resumed. */
  function ResumeNotices(s: Stream, resume: Option<Resume>): seq<Outgoing>
  {
    if resume.Some? then [Outgoing(s.phone, Resuming(s.taskId, resume.value.itemId))] else []
  }

  /** The rows after a close's drain step (and any tick) from the rows `a`:
      only tasks and runs change and rows that were not queued stay as they
      were; a resumed message that `enqueueTaskRun` accepts adds exactly one
      run, with the fresh id, for the task, with the resumed prompt and runner
      kind; otherwise the run rows keep their keys. */
  predicate DrainedRows(a: Tables, b: Tables, resume: Option<Resume>, taskId: string, runId: string)
  {
    SideTablesKept(a, b) && KeepsSettledRuns(a.runs, b.runs)
    && if resume.Some? && EnqueueRefusal(a.runs, taskId, resume.value.runnerKind).None? then
         AddedRun(a.runs, b.runs, runId, taskId, resume.value.prompt, resume.value.runnerKind)
       else SameRunKeys(a.runs, b.runs)
  }

  /** A drain step that resumes nothing changes no row. */
  lemma DrainedNothing(a: Tables, taskId: string, runId: string)
    ensures DrainedRows(a, a, None, taskId, runId)
  {
  }

  /** `enqueueTaskRun`'s outcome on the resumed message is the drain step's. */
  lemma EnqueueDrains(a: Tables, b: Tables, resume: Resume, taskId: string, runId: string, added: bool)
    requires added <==> EnqueueRefusal(a.runs, taskId, resume.runnerKind).None?
    requires !added ==> b == a
    requires added ==> AddedRun(a.runs, b.runs, runId, taskId, resume.prompt, resume.runnerKind)
    requires KeepsSettledRuns(a.runs, b.runs) && SideTablesKept(a, b)
    ensures DrainedRows(a, b, Some(resume), taskId, runId)
  {
  }

  /** A tick after the drain step keeps what the drain step promised. */
  lemma DrainedThenTicked(a: Tables, b: Tables, c: Tables, resume: Option<Resume>, taskId: string, runId: string)
    requires DrainedRows(a, b, resume, taskId, runId)
    requires SideTablesKept(b, c) && SameRunKeys(b.runs, c.runs) && KeepsSettledRuns(b.runs, c.runs)
    ensures DrainedRows(a, c, resume, taskId, runId)
  {
    if resume.Some? && EnqueueRefusal(a.runs, taskId, resume.value.runnerKind).None? {
      assert c.runs[..|a.runs|] == c.runs[..|a.runs|];
      forall i | 0 <= i < |a.runs| ensures a.runs[i].runId == c.runs[..|a.runs|][i].runId {
        assert b.runs[..|a.runs|][i] == b.runs[i];
      }
    }
  }

  /** The head of the queue is queued, so an update to it activates nothing
      new. */
  lemma QueueHeadActivatesNothing(rs: seq<Run>, run: Run, p: RunPatch)
    requires DistinctRunIds(rs) && QueuedRuns(rs) != [] && run == QueuedRuns(rs)[0]
    ensures ActivatesNothing(rs, run.runId, p)
  {
    assert run in QueuedRuns(rs);
    var j :| 0 <= j < |rs| && rs[j] == run;
    forall i | 0 <= i < |rs| && rs[i].runId == run.runId ensures IsActive(rs[i]) {
      assert i == j;
    }
  }

  lemma TickStarts(a: Tables, out0: seq<Outgoing>, maxParallel: nat)
    ensures TickProgress(a, a, out0, out0, 0, maxParallel)
  {
    assert QueuedRuns(a.runs)[0..] == QueuedRuns(a.runs);
  }

  lemma TickSteps(a: Tables, b: Tables, c: Tables, out0: seq<Outgoing>, out1: seq<Outgoing>, out2: seq<Outgoing>,
                  n: nat, maxParallel: nat)
    requires TickProgress(a, b, out0, out1, n, maxParallel)
    requires RunningCount(b.runs) < maxParallel && LeftQueueHead(b.runs, c.runs)
    requires SideTablesKept(b, c) && out1 <= out2
    ensures TickProgress(a, c, out0, out2, n + 1, maxParallel)
  {
    AdmittedOneMore(a.runs, b.runs, c.runs, n, maxParallel);
  }

  /** What a tick keeps: the run rows' keys, the settled rows, the other
      tables and the messages already sent. */
  lemma TickKeeps(a: Tables, b: Tables, out0: seq<Outgoing>, out: seq<Outgoing>, n: nat, maxParallel: nat)
    requires TickProgress(a, b, out0, out, n, maxParallel)
    ensures SameRunKeys(a.runs, b.runs) && KeepsSettledRuns(a.runs, b.runs)
    ensures SideTablesKept(a, b) && out0 <= out
  {
  }

  /** Messages appended after a prefix stay after it. */
  lemma PrefixThrough(a: seq<Outgoing>, b: seq<Outgoing>, mid: seq<Outgoing>, fin: seq<Outgoing>)
    requires mid == a && mid + b <= fin
    ensures a + b <= fin
  {
  }

  class Executor {
    const store: TaskStore
    const maxParallel: nat
    const runsDir: string
    const settings: Runners.BuildSettings

    /** Live processes, oldest first. */
    var processes: seq<Proc>
    /** Per started run, the state its callbacks share. */
    var streams: map<string, Stream>
    /** Chat messages sent, in order. */
    var outbox: seq<Outgoing>
    /** Signals sent to processes, in order. */
    var signals: seq<KillRequest>
    /** Token usage events recorded, in order. */
    var usageEvents: seq<UsageEvent>
    /** Tasks whose execution queue was asked for its next item, in order. */
    var pops: seq<string>

    /** The store's own invariant, and at most one queued-or-running run
        per task. */
    predicate Valid()
      reads this, store
    {
      store.Valid() && OneActivePerTask(store.db.runs)
    }

    constructor (store: TaskStore, maxParallel: nat, runsDir: string, settings: Runners.BuildSettings)
      requires store.Valid() && OneActivePerTask(store.db.runs)
      ensures Valid()
      ensures this.store == store && this.maxParallel == maxParallel && this.runsDir == runsDir
      ensures processes == [] && streams == map[] && outbox == [] && signals == [] && usageEvents == [] && pops == []
    {
      this.store := store;
      this.maxParallel := maxParallel;
      this.runsDir := runsDir;
      this.settings := settings;
      processes := [];
      streams := map[];
      outbox := [];
      signals := [];
      usageEvents := [];
      pops := [];
    }

    /** `start`: restart recovery; the timers are left out. */
    method Start(now: int)
      requires Valid()
      modifies store
      ensures Valid()
      ensures RunningCount(store.db.runs) == 0
      ensures store.db.tasks == RecoveredTasks(old(store.db.tasks), now)
      ensures store.db.runs == RecoveredRuns(old(store.db.runs), now)
    {
      OneActiveAfterRecovery(store.db.runs, now);
      store.MarkOrphanedRunningRunsAsError(now);
    }

    /** `stop`: SIGTERM and SIGKILL to every live process, then forget them. */
    method Stop()
      modifies this
      ensures signals == old(signals) + StopSignals(old(processes))
      ensures processes == []
      ensures streams == old(streams) && outbox == old(outbox) && usageEvents == old(usageEvents) && pops == old(pops)
    {
      var ps := processes;
      var i := 0;
      while i < |ps|
        invariant 0 <= i <= |ps|
        invariant signals == old(signals) + StopSignals(ps[..i])
        invariant processes == ps && streams == old(streams) && outbox == old(outbox)
        invariant usageEvents == old(usageEvents) && pops == old(pops)
      {
        signals := signals + [KillRequest(ps[i].runId, SigTerm, 0), KillRequest(ps[i].runId, SigKill, 0)];
        assert ps[..i + 1][..i] == ps[..i];
        i := i + 1;
      }
      assert ps[..i] == ps;
      processes := [];
    }

    /** `enqueueTaskRun`: refuses a task that already has a queued or running
        run, and a runner kind the registry does not know (`EnqueueRefusal`);
        otherwise records a queued run, marks the task queued and tries to
        start work at once. `runId` is the fresh id the source draws. */
    method EnqueueTaskRun(phone: string, task: Task, prompt: string, runnerKind: string, runId: string, now: int)
      returns (r: Option<Run>)
      requires Valid()
      requires FindRun(store.db.runs, runId).None?
      modifies this, store
      ensures Valid()
      ensures r.None? <==> EnqueueRefusal(old(store.db.runs), task.taskId, runnerKind).Some?
      ensures r.None? ==>
        store.db == old(store.db)
        && outbox == old(outbox) + [Outgoing(phone, EnqueueRefusal(old(store.db.runs), task.taskId, runnerKind).value)]
      ensures r.Some? ==>
        r.value.runId == runId && r.value.taskId == task.taskId && r.value.status == Queued
        && r.value.prompt == prompt && r.value.runnerKind == runnerKind
        && r.value.artifactsDir == ArtifactsDir(runsDir, task.taskId, runId)
        && (RunningCount(store.db.runs) >= maxParallel || QueuedRuns(store.db.runs) == [])
        && AddedRun(old(store.db.runs), store.db.runs, runId, task.taskId, prompt, runnerKind)
      ensures old(outbox) <= outbox
      ensures KeepsSettledRuns(old(store.db.runs), store.db.runs)
      ensures SideTablesKept(old(store.db), store.db)
      ensures pops == old(pops) && usageEvents == old(usageEvents) && signals == old(signals)
    {
      var active := store.GetActiveRunForTask(task.taskId);
      if active.Some? {
        outbox := outbox + [Outgoing(phone, AlreadyActive(task.taskId, active.value.status == Running))];
        return None;
      }
      var runner := Runners.GetRunner(runnerKind);
      if runner.None? {
        outbox := outbox + [Outgoing(phone, UnsupportedRunner(runnerKind))];
        return None;
      }
      var run := CreateQueued(task, prompt, runnerKind, runner.value.runner, runId, now);
      ghost var created := store.db.runs;
      TickAfterEnqueue(phone, task, runnerKind, runId, now);
      KeepsSettledThrough(old(store.db.runs), created, store.db.runs);
      AddedThenKept(old(store.db.runs), created, store.db.runs, run);
      return Some(run);
    }

    /** The end of `enqueueTaskRun`: start what can start, then say "queued"
        when the new run is still waiting. */
    method TickAfterEnqueue(phone: string, task: Task, runnerKind: string, runId: string, now: int)
      requires Valid()
      modifies this, store
      ensures Valid()
      ensures SameRunKeys(old(store.db.runs), store.db.runs) && KeepsSettledRuns(old(store.db.runs), store.db.runs)
      ensures SideTablesKept(old(store.db), store.db)
      ensures RunningCount(store.db.runs) >= maxParallel || QueuedRuns(store.db.runs) == []
      ensures old(outbox) <= outbox
      ensures pops == old(pops) && usageEvents == old(usageEvents) && signals == old(signals)
    {
      ghost var db0, out0 := store.db, outbox;
      ghost var n := Tick(now);
      TickKeeps(db0, store.db, out0, outbox, n, maxParallel);
      var refreshed := store.GetRun(runId);
      if refreshed.Some? && refreshed.value.status == Queued {
        outbox := outbox + [Outgoing(phone, Enqueued(task.taskId, task.projectId, runnerKind))];
      }
    }

    /** The queued run's row, and its task marked queued. */
    method CreateQueued(task: Task, prompt: string, runnerKind: string, runner: Runners.RunnerKind, runId: string, now: int)
      returns (run: Run)
      requires Valid()
      requires FindRun(store.db.runs, runId).None? && ActiveRun(store.db.runs, task.taskId).None?
      modifies store
      ensures Valid()
      ensures run.runId == runId && run.taskId == task.taskId && run.status == Queued
        && run.prompt == prompt && run.runnerKind == runnerKind
        && run.artifactsDir == ArtifactsDir(runsDir, task.taskId, runId)
      ensures store.db.runs == old(store.db.runs) + [run]
      ensures store.db.tasks == UpdateTaskRows(old(store.db.tasks), task.taskId, QueuedTaskPatch)
      ensures SideTablesKept(old(store.db), store.db)
    {
      var artifactsDir := ArtifactsDir(runsDir, task.taskId, runId);
      var spec := Runners.Build(runner, Runners.BuildInput(prompt, task.cwd, artifactsDir), settings);
      OneActiveAfterAppend(store.db.runs, NewRun(runId, task.taskId, runnerKind, prompt,
                                                 CommandRecord(spec.command, spec.redactedArgs), artifactsDir, Queued, now));
      run := store.CreateRunWithId(runId, task.taskId, runnerKind, prompt,
                                   CommandRecord(spec.command, spec.redactedArgs), artifactsDir, Queued, now);
      store.UpdateTask(task.taskId, QueuedTaskPatch);
    }

    /** `tick`: start the oldest queued run while fewer than `maxParallel`
        runs are running. Returns how many runs left the queue. */
    method Tick(now: int) returns (ghost admitted: nat)
      requires Valid()
      modifies this, store
      ensures Valid()
      ensures TickProgress(old(store.db), store.db, old(outbox), outbox, admitted, maxParallel)
      ensures RunningCount(store.db.runs) >= maxParallel || QueuedRuns(store.db.runs) == []
      ensures pops == old(pops) && usageEvents == old(usageEvents) && signals == old(signals)
    {
      admitted := 0;
      ghost var a0, out0 := store.db, outbox;
      ghost var pops0, usage0, signals0 := pops, usageEvents, signals;
      TickStarts(a0, out0, maxParallel);
      while true
        invariant Valid()
        invariant TickProgress(a0, store.db, out0, outbox, admitted, maxParallel)
        invariant pops == pops0 && usageEvents == usage0 && signals == signals0
        decreases |QueuedRuns(store.db.runs)|
      {
        var started := TickOnce(now, a0, out0, admitted);
        if !started {
          break;
        }
        admitted := admitted + 1;
      }
    }

    /** One round of `tick`'s loop after `n` admissions from rows `a0` and
        messages `out0`: stop when the limit is reached or nothing is
        queued, else start the oldest queued run. */
    method TickOnce(now: int, ghost a0: Tables, ghost out0: seq<Outgoing>, ghost n: nat) returns (started: bool)
      requires Valid() && TickProgress(a0, store.db, out0, outbox, n, maxParallel)
      modifies this, store
      ensures Valid()
      ensures started ==> TickProgress(a0, store.db, out0, outbox, n + 1, maxParallel)
      ensures !started ==> store.db == old(store.db) && outbox == old(outbox)
      ensures !started ==> TickProgress(a0, store.db, out0, outbox, n, maxParallel)
      ensures !started ==> RunningCount(store.db.runs) >= maxParallel || QueuedRuns(store.db.runs) == []
      ensures started ==> |QueuedRuns(store.db.runs)| < |QueuedRuns(old(store.db.runs))|
      ensures pops == old(pops) && usageEvents == old(usageEvents) && signals == old(signals)
    {
      var running := store.CountRunningRuns();
      if running >= maxParallel {
        return false;
      }
      var queued := store.ListQueuedRuns(1);
      if |queued| == 0 {
        return false;
      }
      ghost var before := store.db;
      ghost var sent := outbox;
      AdmitHead(queued[0], now);
      TickSteps(a0, before, store.db, out0, sent, outbox, n, maxParallel);
      assert |QueuedRuns(store.db.runs)| == |QueuedRuns(before.runs)| - 1;
      return true;
    }

    /** `startRun` as `tick` sees it: the queue loses its head and only
        tasks, runs and the messages sent change. */
    method AdmitHead(run: Run, now: int)
      requires Valid()
      requires QueuedRuns(store.db.runs) != [] && run == QueuedRuns(store.db.runs)[0]
      modifies this, store
      ensures Valid()
      ensures LeftQueueHead(old(store.db.runs), store.db.runs) && SideTablesKept(old(store.db), store.db)
      ensures old(outbox) <= outbox
      ensures pops == old(pops) && usageEvents == old(usageEvents) && signals == old(signals)
    {
      StartRun(run, now);
    }

    /** `startRun` for the oldest queued run: a run whose task is gone, or
        whose runner is unknown, ends in error; otherwise run and task become
        running, the user is told, and the process and its stream start
        (`Admit` and the functions after it). */
    method StartRun(run: Run, now: int)
      requires Valid()
      requires QueuedRuns(store.db.runs) != [] && run == QueuedRuns(store.db.runs)[0]
      modifies this, store
      ensures Valid()
      ensures LeftQueueHead(old(store.db.runs), store.db.runs)
      ensures store.db == AdmittedTables(old(store.db), run, now, settings)
      ensures SideTablesKept(old(store.db), store.db)
      ensures outbox == old(outbox) + AdmittedNotices(old(store.db), run)
      ensures processes == old(processes) + AdmittedProcs(old(store.db), run, now)
      ensures streams == AdmittedStreams(old(streams), old(store.db), run)
      ensures pops == old(pops) && usageEvents == old(usageEvents) && signals == old(signals)
    {
      ghost var db0 := store.db;
      var admission := Admit(store.db, run);
      var (rp, taskUpdate) := AdmitPatches(admission, run, now, settings);
      LeaveQueue(run, rp, taskUpdate);
      assert store.db == AdmittedTables(db0, run, now, settings);
      if admission.Admitted? {
        Launch(run, admission.task, admission.runner, now);
      } else {
        assert AdmittedNotices(db0, run) == [] && AdmittedProcs(db0, run, now) == [];
        assert AdmittedStreams(streams, db0, run) == streams;
      }
    }

    /** The started run's notice, stream and process. */
    method Launch(run: Run, task: Task, runner: Runners.RunnerKind, now: int)
      modifies this
      ensures outbox == old(outbox) + [Outgoing(task.phone, Starting(task.taskId, task.projectId, run.runnerKind,
                                                                   run.prompt, task.title))]
      ensures streams == old(streams)[run.runId := NewStream(run, task, runner, CodexLastPath(run))]
      ensures processes == old(processes) + [Proc(task.taskId, run.runId, task.phone, now, run.runnerKind)]
      ensures pops == old(pops) && usageEvents == old(usageEvents) && signals == old(signals)
    {
      outbox := outbox + [Outgoing(task.phone, Starting(task.taskId, task.projectId, run.runnerKind, run.prompt, task.title))];
      streams := streams[run.runId := NewStream(run, task, runner, CodexLastPath(run))];
      processes := processes + [Proc(task.taskId, run.runId, task.phone, now, run.runnerKind)];
    }

    /** The run at the head of the queue gets its new status and, when one
        is named, its task row its update. */
    method LeaveQueue(run: Run, p: RunPatch, taskUpdate: Option<(string, TaskPatch)>)
      requires Valid()
      requires QueuedRuns(store.db.runs) != [] && run == QueuedRuns(store.db.runs)[0]
      requires p.status.Some? && p.status.value != Queued
      modifies store
      ensures Valid()
      ensures store.db == old(store.db).(runs := UpdateRunRows(old(store.db.runs), run.runId, p),
                                         tasks := TaskRowsAfter(old(store.db.tasks), taskUpdate))
      ensures LeftQueueHead(old(store.db.runs), store.db.runs)
    {
      LeaveQueueHead(store.db.runs, run, p);
      QueueHeadActivatesNothing(store.db.runs, run, p);
      OneActiveAfterUpdate(store.db.runs, run.runId, p);
      store.UpdateRun(run.runId, p);
      if taskUpdate.Some? {
        store.UpdateTask(taskUpdate.value.0, taskUpdate.value.1);
      }
    }

    /** `onStdoutLine` for a started run; `obj` is the line parsed as JSON
        (None when it is not JSON). */
    method OnStdoutLine(runId: string, line: string, obj: Option<Json>, now: int)
      requires Valid() && runId in streams
      modifies this, store
      ensures Valid()
      ensures var s := old(streams[runId]);
        var e := StdoutStep(s, line, Runners.ParseLine(s.runner, Runners.LineContext(obj, Some(line))), now);
        streams == old(streams)[runId := e.stream]
        && store.db.runs == UpdateRunRows(UpdateRunRows(old(store.db.runs), s.runId, ModelPatch(e.modelWrite)),
                                          s.runId, SessionPatch(e.sessionWrite))
        && store.db.tasks == UpdateTaskRows(old(store.db.tasks), s.taskId, UpdateTextPatch(e.taskUpdate))
        && store.db.messages == old(store.db.messages) && store.db.users == old(store.db.users)
      ensures outbox == old(outbox) && processes == old(processes) && signals == old(signals)
    {
      var s := streams[runId];
      var parsed := Runners.ParseLine(s.runner, Runners.LineContext(obj, Some(line)));
      var e := StdoutStep(s, line, parsed, now);
      streams := streams[runId := e.stream];
      OneActiveAfterUpdate(store.db.runs, s.runId, ModelPatch(e.modelWrite));
      store.UpdateRun(s.runId, ModelPatch(e.modelWrite));
      OneActiveAfterUpdate(store.db.runs, s.runId, SessionPatch(e.sessionWrite));
      store.UpdateRun(s.runId, SessionPatch(e.sessionWrite));
      store.UpdateTask(s.taskId, UpdateTextPatch(e.taskUpdate));
    }

    /** `onStderrLine` for a started run. */
    method OnStderrLine(runId: string, line: string, now: int)
      requires Valid() && runId in streams
      modifies this, store
      ensures Valid()
      ensures var s := old(streams[runId]);
        var e := StderrStep(s, line, now);
        streams == old(streams)[runId := e.stream]
        && store.db == old(store.db).(tasks := UpdateTaskRows(old(store.db.tasks), s.taskId, UpdateTextPatch(e.taskUpdate)))
      ensures outbox == old(outbox) && processes == old(processes)
    {
      var s := streams[runId];
      var e := StderrStep(s, line, now);
      streams := streams[runId := e.stream];
      store.UpdateTask(s.taskId, UpdateTextPatch(e.taskUpdate));
    }

    /** The process `error` event: the first of `error` and `close` finalises
        the run as an error with exit -1; the other is ignored. */
    method OnError(runId: string, message: Option<string>, now: int)
      requires Valid() && runId in streams
      modifies this, store
      ensures Valid()
      ensures old(streams[runId]).finalised ==>
        store.db == old(store.db) && streams == old(streams) && outbox == old(outbox) && processes == old(processes)
      ensures !old(streams[runId]).finalised ==>
        var s := old(streams[runId]);
        var msg := if Present(message) then message.value else "spawn error";
        streams == old(streams)[runId := s.(finalised := true)]
        && processes == RemoveProc(old(processes), runId)
        && store.db.runs == UpdateRunRows(old(store.db.runs), s.runId, FailRunPatch(now, msg))
        && store.db.tasks == UpdateTaskRows(old(store.db.tasks), s.taskId,
             KeepTask.(status := Some(Error), endedAt := Some(Some(now)), lastUpdate := Some(Some("error")),
                       lastError := Some(Some(msg))))
        && outbox == old(outbox) + [Outgoing(s.phone, StartFailed(s.projectId, s.taskId, s.runnerKind,
                                                                  Truncate(Some(msg), StartFailedChars)))]
    {
      var s := streams[runId];
      if s.finalised {
        return;
      }
      streams := streams[runId := s.(finalised := true)];
      processes := RemoveProc(processes, runId);
      var msg := if Present(message) then message.value else "spawn error";
      OneActiveAfterUpdate(store.db.runs, s.runId, FailRunPatch(now, msg));
      store.UpdateRun(s.runId, FailRunPatch(now, msg));
      store.UpdateTask(s.taskId, KeepTask.(status := Some(Error), endedAt := Some(Some(now)),
                                           lastUpdate := Some(Some("error")), lastError := Some(Some(msg))));
      outbox := outbox + [Outgoing(s.phone, StartFailed(s.projectId, s.taskId, s.runnerKind,
                                                        Truncate(Some(msg), StartFailedChars)))];
    }

    /** The first half of the `close` handler: the finalisation proper. */
    method Finalise(runId: string, inp: CloseInputs, now: int) returns (closed: bool, st: Status)
      requires Valid() && runId in streams
      modifies this, store
      ensures Valid()
      ensures closed <==> !old(streams[runId]).finalised
      ensures !closed ==>
        store.db == old(store.db) && streams == old(streams) && outbox == old(outbox)
        && processes == old(processes) && usageEvents == old(usageEvents)
      ensures closed ==>
        var s := old(streams[runId]);
        var summary := CloseSummary(s, inp);
        st == CloseStatus(s, inp)
        && streams == old(streams)[runId := s.(finalised := true)]
        && processes == RemoveProc(old(processes), runId)
        && usageEvents == old(usageEvents) + [CloseUsage(s, summary)]
        && store.db == ClosedTables(old(store.db), s, st, summary, inp, now)
        && outbox == old(outbox) + [CloseMessage(s, st, summary, inp)]
      ensures SameRunKeys(old(store.db.runs), store.db.runs)
      ensures pops == old(pops) && signals == old(signals)
    {
      var s := streams[runId];
      if s.finalised {
        return false, Error;
      }
      closed := true;
      st := CloseStatus(s, inp);
      var summary := CloseSummary(s, inp);
      ClosedKeepsRunIds(store.db, s, st, summary, inp, now);
      CloseRows(s, st, summary, inp, now);
      MarkClosed(runId, s, summary, CloseMessage(s, st, summary, inp));
    }

    /** The close handler's own state: the stream is finalised, the process
        forgotten, the usage recorded and the message sent. */
    method MarkClosed(runId: string, s: Stream, summary: string, message: Outgoing)
      modifies this
      ensures streams == old(streams)[runId := s.(finalised := true)]
      ensures processes == RemoveProc(old(processes), runId)
      ensures usageEvents == old(usageEvents) + [CloseUsage(s, summary)]
      ensures outbox == old(outbox) + [message]
      ensures pops == old(pops) && signals == old(signals)
    {
      streams := streams[runId := s.(finalised := true)];
      processes := RemoveProc(processes, runId);
      usageEvents := usageEvents + [CloseUsage(s, summary)];
      outbox := outbox + [message];
    }

    /** The close handler's writes: the run row, the summary message, the
        task row and, for a purchase confirmation, the pending confirmation. */
    method CloseRows(s: Stream, st: Status, summary: string, inp: CloseInputs, now: int)
      requires Valid() && st != Queued && st != Running
      modifies store
      ensures Valid()
      ensures store.db == ClosedTables(old(store.db), s, st, summary, inp, now)
    {
      WriteClosedRows(s, st, summary, now, inp.code.GetOr(-1));
      if AsksConfirmation(st, s) {
        store.SetPendingConfirmation(s.phone, Some(PurchaseConfirmation), s.taskId, s.runnerKind,
                                     ResumePrompt(inp.contextPretty), Some(inp.contextJson), now + ConfirmationTtlMs, now);
      }
    }

    method WriteClosedRows(s: Stream, st: Status, summary: string, now: int, exitCode: int)
      requires Valid() && st != Queued && st != Running
      modifies store
      ensures Valid()
      ensures store.db == ClosedRows(old(store.db), s, st, summary, now, exitCode)
    {
      OneActiveAfterUpdate(store.db.runs, s.runId, RunClosePatch(st, s.blockedReason, now, exitCode, summary));
      store.UpdateRun(s.runId, RunClosePatch(st, s.blockedReason, now, exitCode, summary));
      if summary != "" {
        store.InsertTaskMessage(s.taskId, "assistant", Prefix(Trim(summary), MaxStoredSummaryChars), now);
      }
      store.UpdateTask(s.taskId, TaskClosePatch(st, s.blockedReason, now, exitCode));
    }

    /** The process `close` event: finalise once (the rows `ClosedTables`
        gives, one message, one usage event), then, for a done, failed or
        cancelled run, run the task's next queued message, and start queued
        work. `nextRunId` is the fresh id a resumed run would get. */
    method OnClose(runId: string, inp: CloseInputs, nextRunId: string, now: int)
      requires Valid() && runId in streams
      requires FindRun(store.db.runs, nextRunId).None?
      modifies this, store
      ensures Valid()
      ensures old(streams[runId]).finalised ==>
        store.db == old(store.db) && streams == old(streams) && outbox == old(outbox) && pops == old(pops)
        && processes == old(processes) && usageEvents == old(usageEvents)
      ensures !old(streams[runId]).finalised ==>
        var s := old(streams[runId]);
        var st := CloseStatus(s, inp);
        var summary := CloseSummary(s, inp);
        var closedDb := ClosedTables(old(store.db), s, st, summary, inp, now);
        var resume := if Drains(st) then NextResume(closedDb, s, inp.nextItem) else None;
        pops == old(pops) + (if Drains(st) then [s.taskId] else [])
        && usageEvents == old(usageEvents) + [CloseUsage(s, summary)]
        && old(outbox) + [CloseMessage(s, st, summary, inp)] + ResumeNotices(s, resume) <= outbox
        && DrainedRows(closedDb, store.db, resume, s.taskId, nextRunId)
        && (RunningCount(store.db.runs) >= maxParallel || QueuedRuns(store.db.runs) == [])
    {
      var s := streams[runId];
      var closed, st := Finalise(runId, inp, now);
      if !closed {
        return;
      }
      ghost var closedOutbox := outbox;
      SameIdsSameAbsence(old(store.db.runs), store.db.runs, nextRunId);
      AfterClose(s, st, inp.nextItem, nextRunId, now);
      ghost var resume := if Drains(st) then NextResume(ClosedTables(old(store.db), s, st, CloseSummary(s, inp), inp, now), s, inp.nextItem) else None;
      PrefixThrough(old(outbox) + [CloseMessage(s, st, CloseSummary(s, inp), inp)], ResumeNotices(s, resume), closedOutbox, outbox);
    }

    /** What follows a first close: the task's queue drains for a done,
        failed or cancelled run, then queued work starts. */
    method AfterClose(s: Stream, st: Status, nextItem: Option<ExecItem>, nextRunId: string, now: int)
      requires Valid()
      requires FindRun(store.db.runs, nextRunId).None?
      modifies this, store
      ensures Valid()
      ensures var resume := if Drains(st) then NextResume(old(store.db), s, nextItem) else None;
        old(outbox) + ResumeNotices(s, resume) <= outbox
        && DrainedRows(old(store.db), store.db, resume, s.taskId, nextRunId)
      ensures pops == old(pops) + (if Drains(st) then [s.taskId] else [])
      ensures RunningCount(store.db.runs) >= maxParallel || QueuedRuns(store.db.runs) == []
      ensures usageEvents == old(usageEvents)
    {
      ghost var db0 := store.db;
      ghost var resume := if Drains(st) then NextResume(store.db, s, nextItem) else None;
      if Drains(st) {
        RunNextItem(s, nextItem, nextRunId, now);
      } else {
        assert DrainedRows(db0, store.db, resume, s.taskId, nextRunId);
      }
      ghost var db1 := store.db;
      ghost var out1 := outbox;
      ghost var n := Tick(now);
      TickKeeps(db1, store.db, out1, outbox, n, maxParallel);
      DrainedThenTicked(db0, db1, store.db, resume, s.taskId, nextRunId);
    }

    /** The drain step of the close handler: the task's execution queue is
        asked for its next item and, when it holds a message and the task
        still belongs to the same user (`NextResume`), the user is told and
        that message is enqueued as the task's next run. */
    method RunNextItem(s: Stream, nextItem: Option<ExecItem>, nextRunId: string, now: int)
      requires Valid()
      requires FindRun(store.db.runs, nextRunId).None?
      modifies this, store
      ensures Valid()
      ensures pops == old(pops) + [s.taskId]
      ensures NextResume(old(store.db), s, nextItem).None? ==>
        store.db == old(store.db) && outbox == old(outbox) && processes == old(processes) && streams == old(streams)
      ensures old(outbox) + ResumeNotices(s, NextResume(old(store.db), s, nextItem)) <= outbox
      ensures DrainedRows(old(store.db), store.db, NextResume(old(store.db), s, nextItem), s.taskId, nextRunId)
      ensures usageEvents == old(usageEvents) && signals == old(signals)
    {
      pops := pops + [s.taskId];
      var next := PendingResume(s, nextItem);
      if next.Some? {
        EnqueueResume(s, next.value, nextRunId, now);
      } else {
        DrainedNothing(store.db, s.taskId, nextRunId);
      }
    }

    /** The queued message to resume, read from the store: the task as it is
        now, and the user's shared memory for the prompt. */
    method PendingResume(s: Stream, nextItem: Option<ExecItem>) returns (r: Option<Resume>)
      requires Valid()
      ensures r == NextResume(store.db, s, nextItem)
    {
      if nextItem.Some? && Present(nextItem.value.content) {
        var latest := store.GetTask(s.taskId);
        if latest.Some? && latest.value.phone == s.phone {
          var memory := store.GetUserSharedMemory(s.phone);
          var mem := if memory.Some? then memory.value.content else "";
          var prompt := QueuedPrompt(mem, nextItem.value.content.value);
          var kind := if latest.value.runnerKind != "" then latest.value.runnerKind else s.runnerKind;
          return Some(Resume(latest.value, nextItem.value.id, prompt, kind));
        }
      }
      return None;
    }

    /** The user is told the queued message is resuming, and it is
        enqueued as the task's next run. */
    method EnqueueResume(s: Stream, resume: Resume, nextRunId: string, now: int)
      requires Valid() && FindRun(store.db.runs, nextRunId).None?
      requires resume.task.taskId == s.taskId
      modifies this, store
      ensures Valid()
      ensures old(outbox) + ResumeNotices(s, Some(resume)) <= outbox
      ensures DrainedRows(old(store.db), store.db, Some(resume), s.taskId, nextRunId)
      ensures pops == old(pops) && usageEvents == old(usageEvents) && signals == old(signals)
    {
      outbox := outbox + [Outgoing(s.phone, Resuming(s.taskId, resume.itemId))];
      ghost var out0 := outbox;
      var r := EnqueueTaskRun(s.phone, resume.task, resume.prompt, resume.runnerKind, nextRunId, now);
      EnqueueDrains(old(store.db), store.db, resume, s.taskId, nextRunId, r.Some?);
      assert old(outbox) + ResumeNotices(s, Some(resume)) == out0;
    }

    /** `cancelTask`: the outcome, rows and signals `CancelOutcome`,
        `CancelledTables` and `CancelSignals` describe; the running process's
        status is left to its `close` event. */
    method CancelTask(taskId: string, now: int) returns (res: CancelResult)
      requires Valid()
      modifies this, store
      ensures Valid()
      ensures res == CancelOutcome(old(store.db), old(processes), taskId)
      ensures store.db == CancelledTables(old(store.db), old(processes), taskId, now)
      ensures signals == old(signals) + CancelSignals(old(store.db), old(processes), taskId)
      ensures processes == old(processes) && streams == old(streams) && outbox == old(outbox)
      ensures pops == old(pops) && usageEvents == old(usageEvents)
    {
      res := CancelOutcome(store.db, processes, taskId);
      var patches := CancelPatches(res, now);
      if patches.Some? {
        var run := store.GetActiveRunForTask(taskId).value;
        CancelPatchesSettle(store.db.runs, run.runId, res, now);
        SetRows(run.runId, patches.value.0, taskId, patches.value.1);
      } else if res == CancelledRunning {
        var run := store.GetActiveRunForTask(taskId).value;
        signals := signals + [KillRequest(run.runId, SigTerm, 0), KillRequest(run.runId, SigKill, KillGraceMs)];
      }
    }

    /** One run row and one task row updated. */
    method SetRows(runId: string, rp: RunPatch, taskId: string, tp: TaskPatch)
      requires Valid() && ActivatesNothing(store.db.runs, runId, rp)
      modifies store
      ensures Valid()
      ensures store.db == old(store.db).(runs := UpdateRunRows(old(store.db.runs), runId, rp),
                                         tasks := UpdateTaskRows(old(store.db.tasks), taskId, tp))
    {
      OneActiveAfterUpdate(store.db.runs, runId, rp);
      store.UpdateRun(runId, rp);
      store.UpdateTask(taskId, tp);
    }

    /** `sendPeriodicReports`: the running tasks grouped by phone, in order of
        first appearance, one report per phone. */
    method SendPeriodicReports(now: int)
      requires Valid()
      modifies this
      ensures outbox == old(outbox) + Reports(RunningTasks(store.db.tasks), now)
      ensures processes == old(processes) && streams == old(streams) && signals == old(signals)
      ensures pops == old(pops) && usageEvents == old(usageEvents)
    {
      var ts := store.ListRunningTasks();
      if |ts| == 0 {
        return;
      }
      var order, byPhone := GroupByPhone(ts);
      var sent := ReportMessages(ts, order, byPhone, now);
      outbox := outbox + sent;
    }
  }

  /** The grouping loop of `sendPeriodicReports`: the phones in order of
      first appearance, and each phone's tasks in order. */
  method GroupByPhone(ts: seq<Task>) returns (order: seq<string>, byPhone: map<string, seq<Task>>)
    ensures order == Phones(ts)
    ensures forall p :: p in byPhone <==> p in order
    ensures forall p :: p in byPhone ==> byPhone[p] == PhoneTasks(ts, p)
  {
    byPhone := map[];
    order := [];
    var i := 0;
    while i < |ts|
      invariant 0 <= i <= |ts|
      invariant order == Phones(ts[..i])
      invariant forall p :: p in byPhone <==> p in order
      invariant forall p :: p in byPhone ==> byPhone[p] == PhoneTasks(ts[..i], p)
    {
      var t := ts[i];
      GroupedSnoc(ts, i, order, byPhone);
      var group := if t.phone in byPhone then byPhone[t.phone] else [];
      if t.phone !in byPhone {
        order := order + [t.phone];
      }
      byPhone := byPhone[t.phone := group + [t]];
      i := i + 1;
    }
    assert ts[..i] == ts;
  }

  /** Adding the next task to its phone's group keeps the grouping. */
  lemma GroupedSnoc(ts: seq<Task>, i: nat, order: seq<string>, byPhone: map<string, seq<Task>>)
    requires i < |ts| && order == Phones(ts[..i])
    requires forall p :: p in byPhone <==> p in order
    requires forall p :: p in byPhone ==> byPhone[p] == PhoneTasks(ts[..i], p)
    ensures var t := ts[i];
      Phones(ts[..i + 1]) == if t.phone in byPhone then order else order + [t.phone]
    ensures var t := ts[i]; var b := byPhone[t.phone := (if t.phone in byPhone then byPhone[t.phone] else []) + [t]];
      forall p :: p in b ==> b[p] == PhoneTasks(ts[..i + 1], p)
  {
    var t := ts[i];
    var group := if t.phone in byPhone then byPhone[t.phone] else [];
    var b := byPhone[t.phone := group + [t]];
    GroupStep(ts, i);
    PhoneTasksEmpty(ts[..i], t.phone);
    assert group == PhoneTasks(ts[..i], t.phone);
    if t.phone in byPhone {
      assert t.phone in Phones(ts[..i]);
    } else {
      assert t.phone !in Phones(ts[..i]);
    }
    forall p | p in b
      ensures b[p] == PhoneTasks(ts[..i + 1], p)
    {
      if p != t.phone {
        assert b[p] == byPhone[p] == PhoneTasks(ts[..i], p);
      }
    }
  }

  /** The sending loop of `sendPeriodicReports`: one report per phone, in
      the grouping's order. */
  method ReportMessages(ts: seq<Task>, order: seq<string>, byPhone: map<string, seq<Task>>, now: int)
    returns (sent: seq<Outgoing>)
    requires order == Phones(ts)
    requires forall p :: p in byPhone <==> p in order
    requires forall p :: p in byPhone ==> byPhone[p] == PhoneTasks(ts, p)
    ensures sent == Reports(ts, now)
  {
    ghost var all := Reports(ts, now);
    sent := [];
    var k := 0;
    while k < |order|
      invariant 0 <= k <= |order|
      invariant sent == all[..k]
    {
      var phone := order[k];
      assert all[k] == Outgoing(phone, ReportNotice(byPhone[phone], now));
      sent := sent + [Outgoing(phone, ReportNotice(byPhone[phone], now))];
      PrefixStep(all, k);
      k := k + 1;
    }
    PrefixAll(all);
  }

  /** One more task in the grouping. */
  lemma GroupStep(ts: seq<Task>, i: nat)
    requires i < |ts|
    ensures Phones(ts[..i + 1]) == if ts[i].phone in Phones(ts[..i]) then Phones(ts[..i]) else Phones(ts[..i]) + [ts[i].phone]
    ensures forall p :: PhoneTasks(ts[..i + 1], p) == if p == ts[i].phone then PhoneTasks(ts[..i], p) + [ts[i]] else PhoneTasks(ts[..i], p)
  {
    assert ts[..i + 1][..i] == ts[..i];
  }

  /** The codex adapter's last-message file, for the close handler. */
  function CodexLastPath(run: Run): Option<string>
  {
    if Runners.GetRunner(run.runnerKind).Some? && Runners.GetRunner(run.runnerKind).value.runner == Runners.Codex
    then Some(CodexCli.LastMessagePath(run.artifactsDir))
    else None
  }

  /** The run row's update when its process starts. */
  function StartRunPatch(run: Run, task: Task, now: int, settings: Runners.BuildSettings): (p: RunPatch)
    requires Runners.IsSupported(run.runnerKind)
    ensures p.status == Some(Running) && p.startedAt == Some(Some(now))
  {
    var spec := Runners.Build(Runners.GetRunner(run.runnerKind).value.runner,
                              Runners.BuildInput(run.prompt, task.cwd, run.artifactsDir), settings);
    KeepRun.(status := Some(Running), startedAt := Some(Some(now)),
             command := Some(CommandRecord(spec.command, spec.redactedArgs)))
  }

  /** The task row's update when its run starts. */
  function StartTaskPatch(run: Run, now: int): (p: TaskPatch)
    ensures p.status == Some(Running) && p.lastUpdate == Some(Some("Running")) && p.lastError == Some(None)
  {
    KeepTask.(status := Some(Running), startedAt := Some(Some(now)), endedAt := Some(None),
              lastUpdate := Some(Some("Running")), lastError := Some(None), runnerKind := Some(run.runnerKind))
  }

  /** The task row's update when its runner is not supported. */
  function UnsupportedTaskPatch(now: int): (p: TaskPatch)
    ensures p.status == Some(Error) && p.lastError == Some(Some(RunnerMissingText))
  {
    KeepTask.(status := Some(Error), endedAt := Some(Some(now)), lastError := Some(Some(RunnerMissingText)))
  }

  function TaskRowsAfter(ts: seq<Task>, update: Option<(string, TaskPatch)>): seq<Task>
  {
    if update.Some? then UpdateTaskRows(ts, update.value.0, update.value.1) else ts
  }

  const MissingProcess := "Process handle missing."

  function CancelRunPatch(now: int): (p: RunPatch)
    ensures p.status == Some(Cancelled) && p.exitCode == Some(Some(-1))
  {
    KeepRun.(status := Some(Cancelled), endedAt := Some(Some(now)), exitCode := Some(Some(-1)),
             summaryText := Some(Some("Cancelled before start.")))
  }

  function CancelTaskPatch(now: int): (p: TaskPatch)
    ensures p.status == Some(Cancelled) && p.endedAt == Some(Some(now))
  {
    KeepTask.(status := Some(Cancelled), endedAt := Some(Some(now)), lastUpdate := Some(Some("cancelled")))
  }

  function MissingTaskPatch(now: int): (p: TaskPatch)
    ensures p.status == Some(Error) && p.lastError == Some(Some(MissingProcess))
  {
    KeepTask.(status := Some(Error), endedAt := Some(Some(now)), lastError := Some(Some(MissingProcess)))
  }

  /** Which way `cancelTask` goes, from the rows and the live processes. */
  function CancelOutcome(db: Tables, procs: seq<Proc>, taskId: string): CancelResult
  {
    if FindTask(db.tasks, taskId).None? then NotFound
    else
      match ActiveRun(db.runs, taskId)
      case None => NoActiveRun
      case Some(run) =>
        if run.status == Queued then CancelledQueued
        else if FindProc(procs, run.runId).None? then ProcessMissing
        else CancelledRunning
  }

  /** The rows after `cancelTask`: a queued run and its task are cancelled, a
      running run without a process and its task end in error, and nothing
      else changes. */
  function CancelledTables(db: Tables, procs: seq<Proc>, taskId: string, now: int): Tables
  {
    match CancelPatches(CancelOutcome(db, procs, taskId), now)
    case None => db
    case Some((rp, tp)) =>
      db.(runs := UpdateRunRows(db.runs, ActiveRun(db.runs, taskId).value.runId, rp),
          tasks := UpdateTaskRows(db.tasks, taskId, tp))
  }

  /** The row updates of an outcome that settles the run at once. */
  function CancelPatches(res: CancelResult, now: int): Option<(RunPatch, TaskPatch)>
  {
    if res == CancelledQueued then Some((CancelRunPatch(now), CancelTaskPatch(now)))
    else if res == ProcessMissing then Some((FailRunPatch(now, MissingProcess), MissingTaskPatch(now)))
    else None
  }

  /** A cancel's run update settles the run, so it activates nothing. */
  lemma CancelPatchesSettle(rs: seq<Run>, runId: string, res: CancelResult, now: int)
    requires CancelPatches(res, now).Some?
    ensures ActivatesNothing(rs, runId, CancelPatches(res, now).value.0)
  {
  }

  /** SIGTERM now and SIGKILL after the grace period, for a running process. */
  function CancelSignals(db: Tables, procs: seq<Proc>, taskId: string): seq<KillRequest>
  {
    if CancelOutcome(db, procs, taskId) == CancelledRunning then
      var runId := ActiveRun(db.runs, taskId).value.runId;
      [KillRequest(runId, SigTerm, 0), KillRequest(runId, SigKill, KillGraceMs)]
    else []
  }

  /** The outcomes of `cancelTask`: each case and the rows and signals it
      leaves; in particular a cancelled queued run is found cancelled and a
      lost process's run is found in error. */
  lemma CancelCases(db: Tables, procs: seq<Proc>, taskId: string, now: int)
    requires DistinctRunIds(db.runs)
    ensures var res := CancelOutcome(db, procs, taskId);
      (res == NotFound <==> FindTask(db.tasks, taskId).None?)
      && (res == NoActiveRun <==> FindTask(db.tasks, taskId).Some? && ActiveRun(db.runs, taskId).None?)
      && (res in {NotFound, NoActiveRun, CancelledRunning} <==> CancelledTables(db, procs, taskId, now) == db)
      && (CancelSignals(db, procs, taskId) != [] <==> res == CancelledRunning)
  {
    var res := CancelOutcome(db, procs, taskId);
    if res == CancelledQueued || res == ProcessMissing {
      var run := ActiveRun(db.runs, taskId).value;
      var p := if res == CancelledQueued then CancelRunPatch(now) else FailRunPatch(now, MissingProcess);
      UpdatedRunFound(db.runs, run, p);
      var rs' := CancelledTables(db, procs, taskId, now).runs;
      assert FindRun(rs', run.runId) == Some(PatchRun(run, p));
      FoundRun(db.runs, run);
      assert rs' != db.runs;
    }
  }

  /** After `cancelTask` the task's active run is no longer active when it was
      queued or had lost its process, and keeps running (until `close`)
      otherwise. */
  lemma CancelSettlesRun(db: Tables, procs: seq<Proc>, taskId: string, now: int)
    requires DistinctRunIds(db.runs)
    requires CancelOutcome(db, procs, taskId) in {CancelledQueued, ProcessMissing, CancelledRunning}
    ensures var run := ActiveRun(db.runs, taskId).value;
      var found := FindRun(CancelledTables(db, procs, taskId, now).runs, run.runId);
      found.Some?
      && (CancelOutcome(db, procs, taskId) == CancelledQueued ==> found.value.status == Cancelled)
      && (CancelOutcome(db, procs, taskId) == ProcessMissing ==> found.value.status == Error)
      && (CancelOutcome(db, procs, taskId) == CancelledRunning ==> found.value.status == Running)
  {
    var run := ActiveRun(db.runs, taskId).value;
    var res := CancelOutcome(db, procs, taskId);
    if res == CancelledRunning {
      FoundRun(db.runs, run);
    } else {
      var p := if res == CancelledQueued then CancelRunPatch(now) else FailRunPatch(now, MissingProcess);
      UpdatedRunFound(db.runs, run, p);
    }
  }

  /** A row is what looking up its own id finds, when ids are distinct. */
  lemma FoundRun(rs: seq<Run>, run: Run)
    requires DistinctRunIds(rs) && run in rs
    ensures FindRun(rs, run.runId) == Some(run)
  {
    var r := FindRun(rs, run.runId);
    var j :| 0 <= j < |rs| && rs[j] == run;
    assert r.Some?;
    var k :| 0 <= k < |rs| && rs[k] == r.value;
    assert rs[k].runId == rs[j].runId;
  }

  /** Updating a row by its id is what looking that id up then finds. */
  lemma UpdatedRunFound(rs: seq<Run>, run: Run, p: RunPatch)
    requires DistinctRunIds(rs) && run in rs
    ensures FindRun(UpdateRunRows(rs, run.runId, p), run.runId) == Some(PatchRun(run, p))
  {
    var rs' := UpdateRunRows(rs, run.runId, p);
    var j :| 0 <= j < |rs| && rs[j] == run;
    assert rs'[j] == PatchRun(run, p);
    assert DistinctRunIds(rs') by {
      forall a, b | 0 <= a < b < |rs'| ensures rs'[a].runId != rs'[b].runId {
        assert rs'[a].runId == rs[a].runId && rs'[b].runId == rs[b].runId;
      }
    }
    FoundRun(rs', PatchRun(run, p));
  }

  const TaskMissingText := "Task not found"
  const RunnerMissingText := "Runner not supported"

  /** How `startRun` treats a queued run: its task is gone, its runner kind
      is unknown, or it starts with that task and runner. */
  datatype Admission = TaskMissing | RunnerMissing(task: Task) | Admitted(task: Task, runner: Runners.RunnerKind)

  function Admit(db: Tables, run: Run): (a: Admission)
    ensures a.TaskMissing? <==> FindTask(db.tasks, run.taskId).None?
    ensures !a.TaskMissing? ==> Some(a.task) == FindTask(db.tasks, run.taskId)
    ensures a.Admitted? <==> FindTask(db.tasks, run.taskId).Some? && Runners.IsSupported(run.runnerKind)
    ensures a.Admitted? ==> Runners.KindName(a.runner) == run.runnerKind
  {
    match FindTask(db.tasks, run.taskId)
    case None => TaskMissing
    case Some(task) =>
      match Runners.GetRunner(run.runnerKind)
      case None => RunnerMissing(task)
      case Some(r) => Admitted(task, r.runner)
  }

  /** The run row's and task row's updates for each way `startRun` goes. */
  function AdmitPatches(a: Admission, run: Run, now: int, settings: Runners.BuildSettings): (r: (RunPatch, Option<(string, TaskPatch)>))
    requires a.Admitted? ==> Runners.IsSupported(run.runnerKind)
    ensures r.0.status.Some? && r.0.status.value != Queued
  {
    match a
    case TaskMissing => (FailRunPatch(now, TaskMissingText), None)
    case RunnerMissing(task) => (FailRunPatch(now, RunnerMissingText), Some((task.taskId, UnsupportedTaskPatch(now))))
    case Admitted(task, _) => (StartRunPatch(run, task, now, settings), Some((task.taskId, StartTaskPatch(run, now))))
  }

  /** The rows after `startRun`. */
  function AdmittedTables(db: Tables, run: Run, now: int, settings: Runners.BuildSettings): Tables
  {
    var (rp, taskUpdate) := AdmitPatches(Admit(db, run), run, now, settings);
    db.(runs := UpdateRunRows(db.runs, run.runId, rp), tasks := TaskRowsAfter(db.tasks, taskUpdate))
  }

  /** The starting notice, sent only for a run that starts. */
  function AdmittedNotices(db: Tables, run: Run): seq<Outgoing>
  {
    match Admit(db, run)
    case Admitted(task, _) => [Outgoing(task.phone, Starting(task.taskId, task.projectId, run.runnerKind, run.prompt, task.title))]
    case _ => []
  }

  function AdmittedProcs(db: Tables, run: Run, now: int): seq<Proc>
  {
    match Admit(db, run)
    case Admitted(task, _) => [Proc(task.taskId, run.runId, task.phone, now, run.runnerKind)]
    case _ => []
  }

  function AdmittedStreams(streams: map<string, Stream>, db: Tables, run: Run): map<string, Stream>
  {
    match Admit(db, run)
    case Admitted(task, runner) => streams[run.runId := NewStream(run, task, runner, CodexLastPath(run))]
    case _ => streams
  }

  lemma AdmittedOneMore(a: seq<Run>, b: seq<Run>, c: seq<Run>, n: nat, maxParallel: nat)
    requires AdmittedFrom(a, b, n, maxParallel)
    requires RunningCount(b) < maxParallel && LeftQueueHead(b, c)
    ensures AdmittedFrom(a, c, n + 1, maxParallel)
  {
    assert QueuedRuns(a)[n..][1..] == QueuedRuns(a)[n + 1..];
  }

  const QueuedTaskPatch := KeepTask.(status := Some(Queued), lastUpdate := Some(Some("Queued")), lastError := Some(None))

  /** Why `enqueueTaskRun` refuses: the task's queued or running run, or an
      unknown runner kind. */
  function EnqueueRefusal(rs: seq<Run>, taskId: string, runnerKind: string): Option<Notice>
  {
    match ActiveRun(rs, taskId)
    case Some(active) => Some(AlreadyActive(taskId, active.status == Running))
    case None => if Runners.IsSupported(runnerKind) then None else Some(UnsupportedRunner(runnerKind))
  }

  /** A task gets a second run only when it has no queued or running one,
      and only for a runner kind the registry knows. */
  lemma EnqueueRefusalCases(rs: seq<Run>, taskId: string, runnerKind: string)
    ensures EnqueueRefusal(rs, taskId, runnerKind).None? <==>
      (forall j :: 0 <= j < |rs| ==> !ActiveFor(rs[j], taskId)) && runnerKind in Runners.KindNames
    ensures (exists j :: 0 <= j < |rs| && ActiveFor(rs[j], taskId)) ==>
      EnqueueRefusal(rs, taskId, runnerKind).value.AlreadyActive?
  {
    if exists j :: 0 <= j < |rs| && ActiveFor(rs[j], taskId) {
      var j :| 0 <= j < |rs| && ActiveFor(rs[j], taskId);
      assert ActiveRun(rs, taskId).Some?;
    }
  }

  lemma KeepsSettledThrough(a: seq<Run>, b: seq<Run>, c: seq<Run>)
    requires KeepsSettledRuns(a, b) && KeepsSettledRuns(b, c)
    ensures KeepsSettledRuns(a, c)
  {
  }

  function ModelPatch(model: Option<string>): RunPatch
  {
    if model.Some? then KeepRun.(model := Some(model)) else KeepRun
  }

  function SessionPatch(sessionId: Option<string>): RunPatch
  {
    if sessionId.Some? then KeepRun.(sessionId := Some(sessionId)) else KeepRun
  }

  function UpdateTextPatch(text: Option<string>): TaskPatch
  {
    if text.Some? then KeepTask.(lastUpdate := Some(text)) else KeepTask
  }

  lemma LeaveQueueHead(rs: seq<Run>, run: Run, p: RunPatch)
    requires DistinctRunIds(rs) && QueuedRuns(rs) != [] && run == QueuedRuns(rs)[0]
    requires p.status.Some? && p.status.value != Queued
    ensures LeftQueueHead(rs, UpdateRunRows(rs, run.runId, p))
  {
    LeavingQueueHead(rs, run.runId, p);
    RunningCountAfterUpdate(rs, run.runId, p);
    assert run in QueuedRuns(rs);
    SettledRowsKept(rs, run, p);
  }

  lemma SettledRowsKept(rs: seq<Run>, run: Run, p: RunPatch)
    requires DistinctRunIds(rs) && run in rs && run.status == Queued
    ensures KeepsSettledRuns(rs, UpdateRunRows(rs, run.runId, p))
    ensures SameRunKeys(rs, UpdateRunRows(rs, run.runId, p))
  {
    var rs' := UpdateRunRows(rs, run.runId, p);
    forall i | 0 <= i < |rs| && rs[i].status != Queued ensures rs'[i] == rs[i] {
      var j :| 0 <= j < |rs| && rs[j] == run;
      assert rs[i] != rs[j];
      assert rs[i].runId != rs[j].runId;
    }
  }
}
