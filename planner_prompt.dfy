/** The planner's two prompt messages (src/planner/prompt.js): the recent
    task context and the project list rendered as text, and the system and
    user messages built around them. */
module PlannerPrompt {
  import opened Wrappers
  import opened Strings
  import opened Seqs

  const NoContext: string := "(sem contexto anterior)"
  const NoProjects: string := "(nenhum projeto carregado)"
  const EmptyMemory: string := "(vazia)"
  const MaxListedProjects: nat := 25

  /** A context message; an empty role stands for a missing one. */
  datatype ContextMessage = ContextMessage(role: string, content: string)

  /** A project entry; an empty id or name stands for a missing one. */
  datatype ProjectEntry = ProjectEntry(id: string, name: string)

  /** "[role] content" with the role defaulting to 'user' and the content trimmed. */
  function ContextLine(m: ContextMessage): (line: string)
    ensures |line| >= 1 && line[0] == '['
  {
    "[" + (if m.role != "" then m.role else "user") + "] " + Trim(m.content)
  }

  /** The lines `formatContext` emits: one per message whose content is not blank. */
  function ContextLines(ms: seq<ContextMessage>): (lines: seq<string>)
    ensures |lines| <= |ms|
  {
    if ms == [] then []
    else
      var init := ms[..|ms| - 1];
      var last := ms[|ms| - 1];
      assert ms == init + [last];
      ContextLines(init) + (if IsBlank(last.content) then [] else [ContextLine(last)])
  }

  /** Adding a message at the end adds its line, unless it is blank. */
  lemma ContextLinesSnoc(init: seq<ContextMessage>, last: ContextMessage)
    ensures ContextLines(init + [last]) == ContextLines(init) + (if IsBlank(last.content) then [] else [ContextLine(last)])
  {
    var ms := init + [last];
    assert ms[..|ms| - 1] == init;
  }

  /** Every non-blank message has its line, and every line comes from a non-blank message. */
  lemma ContextLinesMembers(ms: seq<ContextMessage>)
    ensures forall m :: m in ms && !IsBlank(m.content) ==> ContextLine(m) in ContextLines(ms)
    ensures forall l :: l in ContextLines(ms) ==> exists m :: m in ms && !IsBlank(m.content) && l == ContextLine(m)
  {
    ContextLinesComplete(ms);
    ContextLinesSound(ms);
  }

  /** One more message keeps every non-blank message's line present. */
  lemma CompleteSnoc(init: seq<ContextMessage>, last: ContextMessage)
    requires forall m :: m in init && !IsBlank(m.content) ==> ContextLine(m) in ContextLines(init)
    ensures forall m :: m in init + [last] && !IsBlank(m.content) ==> ContextLine(m) in ContextLines(init + [last])
  {
    ContextLinesSnoc(init, last);
    forall m | m in init + [last] && !IsBlank(m.content) ensures ContextLine(m) in ContextLines(init + [last]) {
      if m != last {
        assert m in init;
      }
    }
  }

  lemma {:induction false} ContextLinesComplete(ms: seq<ContextMessage>)
    ensures forall m :: m in ms && !IsBlank(m.content) ==> ContextLine(m) in ContextLines(ms)
  {
    if ms != [] {
      var init := ms[..|ms| - 1];
      assert ms == init + [ms[|ms| - 1]];
      ContextLinesComplete(init);
      CompleteSnoc(init, ms[|ms| - 1]);
    }
  }

  /** One more message keeps every line traced to a non-blank message. */
  lemma SoundSnoc(init: seq<ContextMessage>, last: ContextMessage)
    requires forall l :: l in ContextLines(init) ==> exists m :: m in init && !IsBlank(m.content) && l == ContextLine(m)
    ensures forall l :: l in ContextLines(init + [last]) ==>
              exists m :: m in init + [last] && !IsBlank(m.content) && l == ContextLine(m)
  {
    ContextLinesSnoc(init, last);
    forall l | l in ContextLines(init + [last])
      ensures exists m :: m in init + [last] && !IsBlank(m.content) && l == ContextLine(m)
    {
      if l in ContextLines(init) {
        var m :| m in init && !IsBlank(m.content) && l == ContextLine(m);
        assert m in init + [last];
      } else {
        assert last in init + [last];
      }
    }
  }

  lemma {:induction false} ContextLinesSound(ms: seq<ContextMessage>)
    ensures forall l :: l in ContextLines(ms) ==> exists m :: m in ms && !IsBlank(m.content) && l == ContextLine(m)
  {
    if ms != [] {
      var init := ms[..|ms| - 1];
      assert ms == init + [ms[|ms| - 1]];
      ContextLinesSound(init);
      SoundSnoc(init, ms[|ms| - 1]);
    }
  }

  /** The text `formatContext` returns; None stands for a value that is not an array. */
  function ContextText(messages: Option<seq<ContextMessage>>): string
  {
    if messages.None? || ContextLines(messages.value) == [] then NoContext
    else Join(ContextLines(messages.value), "\n")
  }

  /** A join whose first part starts with `c` starts with `c`. */
  lemma JoinStartsWith(parts: seq<string>, sep: string, c: char)
    requires |parts| >= 1 && |parts[0]| >= 1 && parts[0][0] == c
    ensures |Join(parts, sep)| >= 1 && Join(parts, sep)[0] == c
  {
  }

  /** The placeholder is shown exactly when there is no array or every message is blank. */
  lemma ContextPlaceholderIff(messages: Option<seq<ContextMessage>>)
    ensures ContextText(messages) == NoContext
            <==> messages.None? || forall m :: m in messages.value ==> IsBlank(m.content)
  {
    if messages.Some? {
      var lines := ContextLines(messages.value);
      ContextLinesMembers(messages.value);
      if lines != [] {
        assert lines[0] in lines;
        JoinStartsWith(lines, "\n", '[');
        assert ContextText(messages)[0] != NoContext[0];
      } else {
        forall m | m in messages.value ensures IsBlank(m.content) {
          assert !IsBlank(m.content) ==> ContextLine(m) in lines;
        }
      }
    }
  }

  /** `formatContext`. */
  method FormatContext(messages: Option<seq<ContextMessage>>) returns (text: string)
    ensures text == ContextText(messages)
  {
    if messages.None? || |messages.value| == 0 {
      return NoContext;
    }
    var lines := CollectContextLines(messages.value);
    text := if |lines| > 0 then Join(lines, "\n") else NoContext;
  }

  /** The loop of `formatContext`: one line per message whose trimmed
      content is not empty. */
  method CollectContextLines(ms: seq<ContextMessage>) returns (lines: seq<string>)
    ensures lines == ContextLines(ms)
  {
    lines := [];
    var i := 0;
    while i < |ms|
      invariant 0 <= i <= |ms|
      invariant lines == ContextLines(ms[..i])
    {
      var m := ms[i];
      PrefixStep(ms, i);
      ContextLinesSnoc(ms[..i], m);
      var content := Trim(m.content);
      if content != [] {
        lines := lines + [ContextLine(m)];
      }
      i := i + 1;
    }
    PrefixAll(ms);
  }

  /** "- id", with " (name)" when the name is present and differs from the id. */
  function ProjectLine(p: ProjectEntry): (line: string)
    ensures StartsWith(line, "- " + p.id)
  {
    "- " + p.id + (if p.name != "" && p.name != p.id then " (" + p.name + ")" else "")
  }

  /** The lines `formatProjects` emits: one per entry that has an id. */
  function ProjectLines(ps: seq<ProjectEntry>): (lines: seq<string>)
    ensures |lines| <= |ps|
  {
    if ps == [] then []
    else
      var init := ps[..|ps| - 1];
      var last := ps[|ps| - 1];
      assert ps == init + [last];
      ProjectLines(init) + (if last.id == "" then [] else [ProjectLine(last)])
  }

  /** Every entry with an id has its line, and every line comes from such an entry. */
  lemma {:induction false} ProjectLinesMembers(ps: seq<ProjectEntry>)
    ensures forall p :: p in ps && p.id != "" ==> ProjectLine(p) in ProjectLines(ps)
    ensures forall l :: l in ProjectLines(ps) ==> exists p :: p in ps && p.id != "" && l == ProjectLine(p)
  {
    if ps != [] {
      var init := ps[..|ps| - 1];
      assert ps == init + [ps[|ps| - 1]];
      ProjectLinesMembers(init);
    }
  }

  /** The "(+N outros)" note, present only beyond the listing limit. */
  function MoreProjectsNote(count: nat): (note: string)
    ensures note != "" <==> count > MaxListedProjects
    ensures count > MaxListedProjects ==> EndsWith(note, " outros)")
  {
    if count > MaxListedProjects then "\n(+" + NatToString(count - MaxListedProjects) + " outros)" else ""
  }

  /** `projects.slice(0, 25)`. */
  function Listed(ps: seq<ProjectEntry>): seq<ProjectEntry>
  {
    if |ps| <= MaxListedProjects then ps else ps[..MaxListedProjects]
  }

  /** The text `formatProjects` returns; None stands for a value that is not an array. */
  function ProjectsText(projects: Option<seq<ProjectEntry>>): string
  {
    if projects.None? || projects.value == [] then NoProjects
    else
      var ps := projects.value;
      Join(ProjectLines(Listed(ps)), "\n") + MoreProjectsNote(|ps|)
  }

  /** Only the first 25 entries are listed; anything beyond shows up only as a count. */
  lemma ProjectsListedAtMost25(ps: seq<ProjectEntry>)
    ensures |ProjectLines(Listed(ps))| <= MaxListedProjects
    ensures forall l :: l in ProjectLines(Listed(ps)) ==>
              exists i :: 0 <= i < MaxListedProjects && i < |ps| && ps[i].id != "" && l == ProjectLine(ps[i])
  {
    var pre := Listed(ps);
    ProjectLinesMembers(pre);
    forall l | l in ProjectLines(pre)
      ensures exists i :: 0 <= i < MaxListedProjects && i < |ps| && ps[i].id != "" && l == ProjectLine(ps[i])
    {
      var p :| p in pre && p.id != "" && l == ProjectLine(p);
      var i :| 0 <= i < |pre| && pre[i] == p;
      assert ps[i] == p;
    }
  }

  /** `formatProjects`. */
  method FormatProjects(projects: Option<seq<ProjectEntry>>) returns (text: string)
    ensures text == ProjectsText(projects)
  {
    if projects.None? || |projects.value| == 0 {
      return NoProjects;
    }
    var ps := projects.value;
    var shown := Listed(ps);
    var lines: seq<string> := [];
    var i := 0;
    while i < |shown|
      invariant 0 <= i <= |shown|
      invariant lines == ProjectLines(shown[..i])
    {
      var p := shown[i];
      assert shown[..i + 1] == shown[..i] + [p];
      if p.id != "" {
        var suffix := if p.name != "" && p.name != p.id then " (" + p.name + ")" else "";
        lines := lines + ["- " + p.id + suffix];
      }
      i := i + 1;
    }
    assert shown[..|shown|] == shown;
    var extra := if |ps| > MaxListedProjects then "\n(+" + NatToString(|ps| - MaxListedProjects) + " outros)" else "";
    text := Join(lines, "\n") + extra;
  }

  /** The fixed instruction text and plan schema the system message embeds. */
  datatype PromptTemplate = PromptTemplate(instructions: string, schema: string)

  datatype PlannerMessages = PlannerMessages(system: string, user: string)

  function RunnerLine(defaultRunnerKind: string): string
  {
    "Runner preferido (nao obrigatorio): \"" + defaultRunnerKind
      + "\". Se action=\"run\", escolha explicitamente um runner_kind (nao omita)."
  }

  /** The shared memory as shown to the planner: trimmed, or '(vazia)' when blank. */
  function MemoryText(sharedMemory: Option<string>): (text: string)
    ensures sharedMemory.None? || IsBlank(sharedMemory.value) ==> text == EmptyMemory
    ensures sharedMemory.Some? && !IsBlank(sharedMemory.value) ==> text == Trim(sharedMemory.value) && text != []
  {
    if sharedMemory.Some? && Trim(sharedMemory.value) != [] then Trim(sharedMemory.value) else EmptyMemory
  }

  const MemoryHeading: string := "Memoria compartilhada (entre tasks/projetos/runners):"
  const MessageHeading: string := "Mensagem atual do usuario:"
  const ProjectsHeading: string := "Projetos disponiveis (parcial):"
  const ContextHeading: string := "Contexto recente (task-scoped):"

  /** The fourteen lines of the user message. */
  function UserLines(taskId: string, projectId: string, memory: string, projectsText: string,
                     contextText: string, userMessage: string): (lines: seq<string>)
    ensures |lines| == 14
  {
    ["task_id: " + taskId, "project_id: " + projectId, ""]
      + [MemoryHeading, memory, "", ProjectsHeading, projectsText, "",
         ContextHeading, contextText, "", MessageHeading, userMessage]
  }

  /** The user message opens with the task and project identifiers. */
  lemma UserMessageStart(taskId: string, projectId: string, memory: string, projectsText: string,
                         contextText: string, userMessage: string)
    ensures StartsWith(Join(UserLines(taskId, projectId, memory, projectsText, contextText, userMessage), "\n"),
                       "task_id: " + taskId + "\n" + "project_id: " + projectId + "\n" + "" + "\n")
  {
    JoinStarts(UserLines(taskId, projectId, memory, projectsText, contextText, userMessage), "\n");
  }

  /** The user message closes with the current message under its heading. */
  lemma UserMessageEnd(taskId: string, projectId: string, memory: string, projectsText: string,
                       contextText: string, userMessage: string)
    ensures EndsWith(Join(UserLines(taskId, projectId, memory, projectsText, contextText, userMessage), "\n"),
                     "\n" + MessageHeading + "\n" + userMessage)
  {
    JoinEnds(UserLines(taskId, projectId, memory, projectsText, contextText, userMessage), "\n");
  }

  /** The shared memory sits on its own line below its heading. */
  lemma UserMessageMemory(taskId: string, projectId: string, memory: string, projectsText: string,
                          contextText: string, userMessage: string)
    ensures Contains(Join(UserLines(taskId, projectId, memory, projectsText, contextText, userMessage), "\n"),
                     "\n" + MemoryHeading + "\n" + memory + "\n" + "" + "\n")
  {
    var head := ["task_id: " + taskId, "project_id: " + projectId, ""];
    var body := [MemoryHeading, memory, "", ProjectsHeading, projectsText, "",
                 ContextHeading, contextText, "", MessageHeading, userMessage];
    JoinWindow(head, body, "\n");
    ContainsIff(Join(head + body, "\n"), "\n" + MemoryHeading + "\n" + memory + "\n" + "" + "\n");
  }

  /** The projects text sits on its own line below its heading. */
  lemma UserMessageProjects(taskId: string, projectId: string, memory: string, projectsText: string,
                            contextText: string, userMessage: string)
    ensures Contains(Join(UserLines(taskId, projectId, memory, projectsText, contextText, userMessage), "\n"),
                     "\n" + ProjectsHeading + "\n" + projectsText + "\n" + "" + "\n")
  {
    var head := ["task_id: " + taskId, "project_id: " + projectId, "", MemoryHeading, memory, ""];
    var body := [ProjectsHeading, projectsText, "", ContextHeading, contextText, "", MessageHeading, userMessage];
    assert UserLines(taskId, projectId, memory, projectsText, contextText, userMessage) == head + body;
    JoinWindow(head, body, "\n");
    ContainsIff(Join(head + body, "\n"), "\n" + ProjectsHeading + "\n" + projectsText + "\n" + "" + "\n");
  }

  /** The context text sits on its own line below its heading. */
  lemma UserMessageContext(taskId: string, projectId: string, memory: string, projectsText: string,
                           contextText: string, userMessage: string)
    ensures Contains(Join(UserLines(taskId, projectId, memory, projectsText, contextText, userMessage), "\n"),
                     "\n" + ContextHeading + "\n" + contextText + "\n" + "" + "\n")
  {
    var head := ["task_id: " + taskId, "project_id: " + projectId, "", MemoryHeading, memory, "",
                 ProjectsHeading, projectsText, ""];
    var body := [ContextHeading, contextText, "", MessageHeading, userMessage];
    assert UserLines(taskId, projectId, memory, projectsText, contextText, userMessage) == head + body;
    JoinWindow(head, body, "\n");
    ContainsIff(Join(head + body, "\n"), "\n" + ContextHeading + "\n" + contextText + "\n" + "" + "\n");
  }

  /** `buildPlannerMessages`. The forced runner kind is accepted and ignored,
      as in the source. */
  function BuildPlannerMessages(
    template: PromptTemplate,
    userMessage: string,
    contextMessages: Option<seq<ContextMessage>>,
    taskId: string,
    projectId: string,
    forcedRunnerKind: Option<string>,
    defaultRunnerKind: string,
    projects: Option<seq<ProjectEntry>>,
    sharedMemory: Option<string>): (r: PlannerMessages)
    ensures StartsWith(r.system, template.instructions + "\n" + template.schema + "\n\n")
    ensures EndsWith(r.system, RunnerLine(defaultRunnerKind))
    ensures StartsWith(r.user, "task_id: " + taskId + "\n" + "project_id: " + projectId + "\n" + "" + "\n")
    ensures EndsWith(r.user, "\n" + MessageHeading + "\n" + userMessage)
    ensures Contains(r.user, "\n" + MemoryHeading + "\n" + MemoryText(sharedMemory) + "\n" + "" + "\n")
    ensures Contains(r.user, "\n" + ProjectsHeading + "\n" + ProjectsText(projects) + "\n" + "" + "\n")
    ensures Contains(r.user, "\n" + ContextHeading + "\n" + ContextText(contextMessages) + "\n" + "" + "\n")
  {
    var front := template.instructions + "\n" + template.schema + "\n\n";
    ConcatParts(front, RunnerLine(defaultRunnerKind), "");
    var memory := MemoryText(sharedMemory);
    var projectsText := ProjectsText(projects);
    var contextText := ContextText(contextMessages);
    UserMessageStart(taskId, projectId, memory, projectsText, contextText, userMessage);
    UserMessageEnd(taskId, projectId, memory, projectsText, contextText, userMessage);
    UserMessageMemory(taskId, projectId, memory, projectsText, contextText, userMessage);
    UserMessageProjects(taskId, projectId, memory, projectsText, contextText, userMessage);
    UserMessageContext(taskId, projectId, memory, projectsText, contextText, userMessage);
    PlannerMessages(front + RunnerLine(defaultRunnerKind),
                    Join(UserLines(taskId, projectId, memory, projectsText, contextText, userMessage), "\n"))
  }
}
