/** The generation orchestrator (src/services/generation_service.py): a task record
    whose progress, step and status the pipeline updates as it runs the agents one
    after another, and the project's status around the run. The database session is
    the two stores and the generation task map; the clock's timestamp and the fresh ids are
    parameters. */
module Generation {
  import opened Wrappers
  import opened Text
  import opened Errors
  import opened Json
  import opened Runs
  import Router
  import Template
  import Agents
  import Sections
  import Requirements
  import Retrieval
  import Compliance
  import Assembler
  import Projects
  import Documents

  const Processing: string := "processing"
  const Completed: string := "completed"
  const Failed: string := "failed"
  const Generating: string := "generating"

  const StepInit: string := "Ініціалізація генерації"
  const StepAnalysis: string := "Аналіз вимог проєкту"
  const StepRetrieval: string := "Пошук релевантного контексту"
  const StepParallel: string := "Паралельна генерація секцій"
  const StepCompliance: string := "Перевірка відповідності КМУ №205"
  const StepAssembly: string := "Збірка фінального документу"
  const StepDone: string := "Генерація завершена"
  const StepFailedPrefix: string := "Помилка: "
  const StepSectionPrefix: string := "Генерація секції "

  /** A row of the `generation_tasks` table. */
  datatype Task = Task(
    id: string, projectId: string, status: string, progress: real, currentStep: Option<string>,
    errorMessage: Option<string>, startedAt: Option<string>, completedAt: Option<string>)

  /** The arguments of one `_update_task` call. */
  datatype Update = Update(progress: real, step: string, status: string, error: Option<string>)

  /** One `_update_task` call, with the generation task it names. */
  datatype Call = Call(taskId: string, update: Update)

  predicate Terminal(status: string) {
    status == Completed || status == Failed
  }

  // ---------------------------------------------------------------- one update

  /** What `_update_task` does to a found task: progress, step and status are
      overwritten; the error message only by a non-empty error; the completion time is
      stamped only by a terminal status. */
  function Apply(t: Task, u: Update, now: string): Task {
    var t1 := t.(progress := u.progress, currentStep := Some(u.step), status := u.status);
    var t2 := if u.error.Some? && u.error.value != [] then t1.(errorMessage := u.error) else t1;
    if Terminal(u.status) then t2.(completedAt := Some(now)) else t2
  }

  /** The updates made one after another, all at time `now`. */
  function ApplyAll(t: Task, us: seq<Update>, now: string): Task
    decreases |us|
  {
    if us == [] then t else Apply(ApplyAll(t, us[..|us| - 1], now), us[|us| - 1], now)
  }

  /** A generation task keeps its identity whatever is applied, and ends with the progress, step
      and status of the last update. */
  lemma {:induction false} ApplyAllKeepsIdentity(t: Task, us: seq<Update>, now: string)
    ensures var r := ApplyAll(t, us, now);
            && r.id == t.id && r.projectId == t.projectId && r.startedAt == t.startedAt
            && (us != [] ==> && r.progress == us[|us| - 1].progress && r.status == us[|us| - 1].status
                             && r.currentStep == Some(us[|us| - 1].step))
    decreases |us|
  {
    if us != [] {
      ApplyAllKeepsIdentity(t, us[..|us| - 1], now);
    }
  }

  /** `completed_at` is set exactly when some update had a terminal status: without one
      it keeps its value, and after one it holds the time. */
  lemma {:induction false} CompletedAtIffTerminal(t: Task, us: seq<Update>, now: string)
    ensures (forall i :: 0 <= i < |us| ==> !Terminal(us[i].status)) ==> ApplyAll(t, us, now).completedAt == t.completedAt
    ensures (exists i :: 0 <= i < |us| && Terminal(us[i].status)) ==> ApplyAll(t, us, now).completedAt == Some(now)
    decreases |us|
  {
    if us != [] {
      var init := us[..|us| - 1];
      CompletedAtIffTerminal(t, init, now);
      assert forall i :: 0 <= i < |init| ==> init[i] == us[i];
      if !Terminal(us[|us| - 1].status) && exists i :: 0 <= i < |us| && Terminal(us[i].status) {
        var i :| 0 <= i < |us| && Terminal(us[i].status);
        assert init[i] == us[i];
      }
    }
  }

  /** The error message is the last non-empty error any update carried, or what the generation task
      held before when none did. */
  lemma {:induction false} ErrorMessageIsLastError(t: Task, us: seq<Update>, now: string, i: nat)
    requires i < |us| && us[i].error.Some? && us[i].error.value != []
    requires forall j :: i < j < |us| ==> us[j].error.None? || us[j].error.value == []
    ensures ApplyAll(t, us, now).errorMessage == us[i].error
    decreases |us|
  {
    var init := us[..|us| - 1];
    if i < |init| {
      assert init[i] == us[i];
      ErrorMessageIsLastError(t, init, now, i);
    }
  }

  lemma {:induction false} ErrorMessageKept(t: Task, us: seq<Update>, now: string)
    requires forall j :: 0 <= j < |us| ==> us[j].error.None? || us[j].error.value == []
    ensures ApplyAll(t, us, now).errorMessage == t.errorMessage
    decreases |us|
  {
    if us != [] {
      ErrorMessageKept(t, us[..|us| - 1], now);
    }
  }

  /** A progress update (status "processing", no error) leaves no trace once the next
      update is applied: the generation task is what that next update alone makes of it. */
  lemma ProgressUpdateAbsorbed(t: Task, u: Update, v: Update, now: string)
    requires u.status == Processing && u.error.None?
    ensures Apply(Apply(t, u, now), v, now) == Apply(t, v, now)
  {
  }

  // ---------------------------------------------------------------- the plan

  /** The progress before section `i` (1-based) in sequential mode. */
  function SectionProgress(i: nat): real {
    0.2 + 0.6 * (i as real) / 10.0
  }

  function Progress(progress: real, step: string): Update {
    Update(progress, step, Processing, None)
  }

  /** The updates of sequential mode, one before each of the ten sections. */
  function SequentialPlan(): (r: seq<Update>)
    ensures |r| == 10
    ensures forall i :: 0 <= i < 10 ==> r[i].status == Processing && r[i].error.None?
  {
    seq(10, i requires 0 <= i < 10 => Progress(SectionProgress(i + 1), StepSectionPrefix + Str(i + 1)))
  }

  function MiddlePlan(parallel: bool): seq<Update> {
    if parallel then [Progress(0.3, StepParallel)] else SequentialPlan()
  }

  const DoneUpdate: Update := Update(1.0, StepDone, Completed, None)

  function HeadPlan(): seq<Update> {
    [Progress(0.1, StepAnalysis), Progress(0.2, StepRetrieval)]
  }

  function TailPlan(): seq<Update> {
    [Progress(0.9, StepCompliance), Progress(0.95, StepAssembly), DoneUpdate]
  }

  /** The updates of a run that succeeds, in order. */
  function SuccessPlan(parallel: bool): seq<Update> {
    HeadPlan() + MiddlePlan(parallel) + TailPlan()
  }

  /** The update the exception handler makes. */
  function FailureUpdate(e: Error): Update {
    Update(0.0, StepFailedPrefix + Message(e), Failed, Some(Message(e)))
  }

  /** Sequential mode's progress rises strictly from section to section, from 0.26
      before the first to 0.8 before the last. */
  lemma SequentialProgressRises()
    ensures forall i, j :: 0 <= i < j < 10 ==> SequentialPlan()[i].progress < SequentialPlan()[j].progress
    ensures SequentialPlan()[0].progress == 0.26 && SequentialPlan()[9].progress == 0.8
  {
    forall i, j | 0 <= i < j < 10 ensures SequentialPlan()[i].progress < SequentialPlan()[j].progress {
      assert SequentialPlan()[i].progress == SectionProgress(i + 1);
      assert SequentialPlan()[j].progress == SectionProgress(j + 1);
    }
  }

  /** A successful run's progress rises strictly from 0.1 to 1.0; every update but the
      last keeps the generation task processing and carries no error, and the last completes it. */
  lemma SuccessPlanShape(parallel: bool)
    ensures var p := SuccessPlan(parallel);
            && |p| == (if parallel then 6 else 15)
            && p[0].progress == 0.1 && p[|p| - 1] == DoneUpdate
            && (forall i, j :: 0 <= i < j < |p| ==> p[i].progress < p[j].progress)
            && (forall i :: 0 <= i < |p| - 1 ==> p[i].status == Processing && p[i].error.None?)
  {
    var p := SuccessPlan(parallel);
    var m := MiddlePlan(parallel);
    MiddlePlanShape(parallel);
    forall i, j | 0 <= i < j < |p| ensures p[i].progress < p[j].progress {
      PlanAt(parallel, i);
      PlanAt(parallel, j);
    }
    forall i | 0 <= i < |p| - 1 ensures p[i].status == Processing && p[i].error.None? {
      PlanAt(parallel, i);
    }
    PlanAt(parallel, 0);
    PlanAt(parallel, |p| - 1);
  }

  /** The middle of the plan lies strictly between 0.2 and 0.9 and rises strictly. */
  lemma MiddlePlanShape(parallel: bool)
    ensures var m := MiddlePlan(parallel);
            && |m| == (if parallel then 1 else 10)
            && (forall k :: 0 <= k < |m| ==> 0.2 < m[k].progress < 0.9 && m[k].status == Processing && m[k].error.None?)
            && (forall i, j :: 0 <= i < j < |m| ==> m[i].progress < m[j].progress)
  {
    if !parallel {
      SequentialProgressRises();
      var m := SequentialPlan();
      forall k | 0 <= k < 10 ensures 0.2 < m[k].progress < 0.9 {
        assert m[k].progress == SectionProgress(k + 1);
      }
    }
  }

  /** Where the `k`th update of the plan comes from. */
  lemma PlanAt(parallel: bool, k: nat)
    requires k < |SuccessPlan(parallel)|
    ensures var m := MiddlePlan(parallel);
            SuccessPlan(parallel)[k] == if k < 2 then HeadPlan()[k]
                                        else if k < 2 + |m| then m[k - 2]
                                        else TailPlan()[k - 2 - |m|]
  {
  }

  /** `[(task_id, u) for u in us]`. */
  function Stamp(taskId: string, us: seq<Update>): (r: seq<Call>)
    ensures |r| == |us|
    ensures forall i :: 0 <= i < |r| ==> r[i] == Call(taskId, us[i])
  {
    seq(|us|, i requires 0 <= i < |us| => Call(taskId, us[i]))
  }

  lemma StampSnoc(taskId: string, us: seq<Update>, u: Update)
    ensures Stamp(taskId, us + [u]) == Stamp(taskId, us) + [Call(taskId, u)]
  {
  }

  // ---------------------------------------------------------------- the sections

  /** The five agents as the orchestrator calls their `execute`, and
      `settings.enable_parallel_generation`:
      - `analyze(project_name, project_description, additional_block)`;
      - `retrieve(project_description, requirements)`, the contexts of the ten sections;
      - `generate(section_id, project_name, project_description, requirements, rag_context)`;
      - `check(project_name, sections)`;
      - `assemble(project_id, project_name, sections, compliance_result, requirements, now)`.
      `Standard` wires in the agents this model defines. */
  datatype Environment = Environment(
    analyze: (string, string, string) -> Result<Json, Error>,
    retrieve: (string, Json) -> Result<map<string, string>, Error>,
    generate: (string, string, string, Json, string) -> Result<Sections.Section, Error>,
    check: (string, seq<Sections.Section>) -> Result<Compliance.Report, Error>,
    assemble: (string, string, seq<Sections.Section>, Option<Compliance.Report>, Json, string) -> Result<Assembler.Document, Error>,
    parallel: bool)

  /** The prompt texts of the three agents that ask a model. */
  datatype Prompts = Prompts(analyst: Agents.PromptTexts, generator: Agents.PromptTexts, checker: Agents.PromptTexts)

  /** The service's agents: the requirements analyst, the retrieval agent over `index`,
      the section generator and the compliance checker over `t` and the two backends,
      and the assembler, each called through the shared `execute`. */
  function Standard(t: Template.Template, backends: Router.Backends, decode: Decoder, index: Retrieval.VectorIndex,
                    prompts: Prompts, parallel: bool): Environment
  {
    Environment(
      (name, description, additional) =>
        Agents.Execute(Requirements.Analyze(prompts.analyst, name, description, additional, backends, decode)),
      (description, requirements) => Agents.Execute(Retrieval.Contexts(description, requirements, None, index)),
      (id, name, description, requirements, context) =>
        Agents.Execute(Sections.Generate(prompts.generator, t, id, name, description, requirements, context, backends)),
      (name, sections) => Agents.Execute(Compliance.Check(prompts.checker, t, name, sections, backends, decode)),
      (projectId, name, sections, report, requirements, now) =>
        Agents.Execute(Assembler.Assembled(t, projectId, name, sections, report, requirements, now)),
      parallel)
  }

  /** Every section the generator returns carries the id it was asked for. */
  ghost predicate KeepsIds(env: Environment) {
    forall id, name, description, requirements, context ::
      env.generate(id, name, description, requirements, context).Ok? ==>
        env.generate(id, name, description, requirements, context).value.id == id
  }

  lemma StandardKeepsIds(t: Template.Template, backends: Router.Backends, decode: Decoder, index: Retrieval.VectorIndex,
                         prompts: Prompts, parallel: bool)
    ensures KeepsIds(Standard(t, backends, decode, index, prompts, parallel))
  {
  }

  /** The arguments `start_generation` hands to the background run. */
  datatype Run = Run(taskId: string, projectId: string, projectName: string, projectDescription: string,
                     additional: seq<(string, string)>)

  /** Generating one section with its context, as the orchestrator calls the agent. */
  function Step(env: Environment, run: Run, requirements: Json, contexts: map<string, string>)
    : string -> Result<Sections.Section, Error>
  {
    id => env.generate(id, run.projectName, run.projectDescription, requirements, Sections.ContextFor(contexts, id))
  }

  /** `asyncio.gather(..., return_exceptions=True)` over the ten sections: the outcome
      of every section, in launch order. */
  function Gathered(step: string -> Result<Sections.Section, Error>): (r: seq<Result<Sections.Section, Error>>)
    ensures |r| == 10
    ensures forall i :: 0 <= i < 10 ==> r[i] == step(Str(i + 1))
  {
    seq(10, i requires 0 <= i < 10 => step(Str(i + 1)))
  }

  /** The stand-in for the section at position `i` (1-based) whose generation raised. */
  function Placeholder(i: nat, e: Error): Sections.Section {
    Sections.Section(Str(i), "Секція " + Str(i), "[Помилка генерації: " + Message(e) + "]", [], None)
  }

  /** The section kept at position `i` (1-based) for an outcome. */
  function Settle(i: nat, outcome: Result<Sections.Section, Error>): Sections.Section {
    match outcome
    case Ok(s) => s
    case Err(e) => Placeholder(i, e)
  }

  /** The outcomes with every failure replaced by its placeholder. */
  function Settled(outcomes: seq<Result<Sections.Section, Error>>): (r: seq<Sections.Section>)
    ensures |r| == |outcomes|
    ensures forall i :: 0 <= i < |r| ==> r[i] == Settle(i + 1, outcomes[i])
  {
    seq(|outcomes|, i requires 0 <= i < |outcomes| => Settle(i + 1, outcomes[i]))
  }

  /** How many sections sequential mode asks for: all of them, or up to and including
      the first that fails. */
  function Attempted<A, T, E>(items: seq<A>, step: A -> Result<T, E>): (n: nat)
    ensures n <= |items|
    decreases |items|
  {
    if items == [] then 0
    else if RunAll(items[..|items| - 1], step).Err? then Attempted(items[..|items| - 1], step)
    else |items|
  }

  lemma {:induction false} AttemptedPrefixErr<A, T, E>(items: seq<A>, n: nat, step: A -> Result<T, E>)
    requires n <= |items|
    requires RunAll(items[..n], step).Err?
    ensures Attempted(items, step) == Attempted(items[..n], step)
    decreases |items|
  {
    if n < |items| {
      var front := items[..|items| - 1];
      assert front[..n] == items[..n];
      RunAllPrefixErr(front, n, step);
      AttemptedPrefixErr(front, n, step);
    } else {
      assert items[..n] == items;
    }
  }

  /** The section list of either mode: parallel mode never fails, sequential mode
      fails with the first failing section. */
  function SectionsOf(env: Environment, run: Run, requirements: Json, contexts: map<string, string>)
    : Result<seq<Sections.Section>, Error>
  {
    var step := Step(env, run, requirements, contexts);
    if env.parallel then Ok(Settled(Gathered(step)))
    else RunAll(Template.StandardIds(), step)
  }

  /** The ten outcomes gathered in launch order, each failure replaced by its
      placeholder: exactly ten sections, the `i`th with id `str(i)` when every generated
      section carries the id it was asked for; a section that was generated is kept
      unchanged, one that failed is its placeholder. */
  lemma SettledShape(step: string -> Result<Sections.Section, Error>)
    requires forall i :: 1 <= i <= 10 && step(Str(i)).Ok? ==> step(Str(i)).value.id == Str(i)
    ensures var r := Settled(Gathered(step));
            && |r| == 10
            && forall i :: 0 <= i < 10 ==>
                 && r[i].id == Str(i + 1)
                 && (step(Str(i + 1)).Ok? ==> r[i] == step(Str(i + 1)).value)
                 && (step(Str(i + 1)).Err? ==> r[i] == Placeholder(i + 1, step(Str(i + 1)).error))
  {
    var r := Settled(Gathered(step));
    forall i | 0 <= i < 10 ensures r[i].id == Str(i + 1) {
      assert 1 <= i + 1 <= 10;
    }
  }

  /** With a generator that keeps ids, as the service's own does, parallel mode yields
      exactly ten sections with ids "1" to "10". */
  lemma ParallelShape(env: Environment, run: Run, requirements: Json, contexts: map<string, string>)
    requires env.parallel && KeepsIds(env)
    ensures var step := Step(env, run, requirements, contexts);
            var r := SectionsOf(env, run, requirements, contexts);
            && r.Ok? && |r.value| == 10
            && forall i :: 0 <= i < 10 ==>
                 && r.value[i].id == Str(i + 1)
                 && (step(Str(i + 1)).Ok? ==> r.value[i] == step(Str(i + 1)).value)
                 && (step(Str(i + 1)).Err? ==> r.value[i] == Placeholder(i + 1, step(Str(i + 1)).error))
  {
    var step := Step(env, run, requirements, contexts);
    forall i | 1 <= i <= 10 && step(Str(i)).Ok? ensures step(Str(i)).value.id == Str(i) {
      assert step(Str(i)) == env.generate(Str(i), run.projectName, run.projectDescription, requirements,
                                          Sections.ContextFor(contexts, Str(i)));
    }
    SettledShape(step);
  }

  /** Sequential mode stops at the first failing section: it asks for the sections up to
      and including that one and fails with its error; without a failure it asks for all
      the sections and returns their results in order. */
  lemma AttemptedShape<A, T, E>(items: seq<A>, step: A -> Result<T, E>)
    requires items != []
    ensures var r := RunAll(items, step);
            var n := Attempted(items, step);
            && (r.Ok? ==> n == |items| && |r.value| == |items|
                          && forall i :: 0 <= i < |items| ==> step(items[i]) == Ok(r.value[i]))
            && (r.Err? ==> && 1 <= n
                           && (forall j :: 0 <= j < n - 1 ==> step(items[j]).Ok?)
                           && step(items[n - 1]) == Err(r.error))
  {
    RunAllOk(items, step);
    RunAllErr(items, step);
    if RunAll(items, step).Err? {
      var k :| 0 <= k < |items| && (forall j :: 0 <= j < k ==> step(items[j]).Ok?)
               && step(items[k]) == Err(RunAll(items, step).error);
      AttemptedAtFirstFailure(items, step, k);
    }
  }

  /** The step after `i` sequential updates: the plan's next entry is the progress
      before section `i + 1`, the section with id `str(i + 1)`. */
  lemma SequentialPlanStep(i: nat)
    requires i < 10
    ensures SequentialPlan()[i] == Progress(SectionProgress(i + 1), StepSectionPrefix + Str(i + 1))
    ensures Template.StandardIds()[i] == Str(i + 1)
  {
  }

  /** A run whose first `i` items succeed and whose item `i` fails is that failure, after
      `i + 1` attempts. */
  lemma FirstFailure<A, T, E>(items: seq<A>, step: A -> Result<T, E>, i: nat)
    requires i < |items| && RunAll(items[..i], step).Ok? && step(items[i]).Err?
    ensures RunAll(items, step) == Err(step(items[i]).error)
    ensures Attempted(items, step) == i + 1
  {
    RunAllStep(items, i, step);
    RunAllPrefixErr(items, i + 1, step);
    AttemptedPrefixErr(items, i + 1, step);
    assert items[..i + 1][..i] == items[..i];
  }

  /** A run that gets through every item attempted them all. */
  lemma Finished<A, T, E>(items: seq<A>, step: A -> Result<T, E>)
    requires RunAll(items[..|items|], step).Ok?
    ensures RunAll(items, step) == RunAll(items[..|items|], step)
    ensures Attempted(items, step) == |items|
  {
    assert items[..|items|] == items;
  }

  lemma AttemptedAtFirstFailure<A, T, E>(items: seq<A>, step: A -> Result<T, E>, k: nat)
    requires k < |items| && (forall j :: 0 <= j < k ==> step(items[j]).Ok?) && step(items[k]).Err?
    ensures Attempted(items, step) == k + 1
  {
    var front := items[..k];
    assert forall j :: 0 <= j < |front| ==> front[j] == items[j];
    RunAllOk(front, step);
    RunAllStep(items, k, step);
    RunAllPrefixErr(items, k + 1, step);
    AttemptedPrefixErr(items, k + 1, step);
    assert items[..k + 1][..k] == front;
  }

  // ---------------------------------------------------------------- the whole run

  /** After `n` section updates of either mode, the run stands at `2 + n` updates of the
      plan, and the generation task is what the last of them made of it. */
  lemma MiddleMerged(parallel: bool, taskId: string, n: nat, baseTasks: map<string, Task>, now: string)
    requires 1 <= n <= |MiddlePlan(parallel)|
    ensures var plan := SuccessPlan(parallel);
            var m := MiddlePlan(parallel);
            && Stamp(taskId, plan[..2]) + Stamp(taskId, m[..n]) == Stamp(taskId, plan[..2 + n])
            && plan[2 + n - 1] == m[n - 1]
            && (taskId in baseTasks ==>
                  Apply(Apply(baseTasks[taskId], plan[1], now), m[n - 1], now) == Apply(baseTasks[taskId], m[n - 1], now))
  {
    var plan := SuccessPlan(parallel);
    var m := MiddlePlan(parallel);
    assert plan[..2 + n] == plan[..2] + m[..n];
  }

  /** `document.get("metadata", {})` as it is stored. */
  function MetadataJson(m: Assembler.Metadata): Json {
    JObj(map["generated_at" := JStr(m.generatedAt), "total_sections" := JNum(m.totalSections as real),
             "requirements_summary" := m.requirementsSummary, "system_type" := m.systemType])
  }

  /** The row the run saves for its document. */
  function Saved(docId: string, projectId: string, d: Assembler.Document): Documents.StoredDocument {
    Documents.StoredDocument(docId, projectId, d.sections, d.complianceScore, MetadataJson(d.metadata), Documents.Completed)
  }

  /** The first half of the body of the `try` in `_run_generation`: the requirements and
      the section list, or the first exception raised by the analysis, the retrieval or
      the sections. */
  function Prepared(env: Environment, run: Run): Result<(Json, seq<Sections.Section>), Error> {
    var additional := Requirements.AdditionalBlock(run.additional);
    match env.analyze(run.projectName, run.projectDescription, additional)
    case Err(e) => Err(e)
    case Ok(requirements) =>
      match env.retrieve(run.projectDescription, requirements)
      case Err(e) => Err(e)
      case Ok(contexts) =>
        match SectionsOf(env, run, requirements, contexts)
        case Err(e) => Err(e)
        case Ok(sections) => Ok((requirements, sections))
  }

  /** The second half: the compliance report and the assembled document. */
  function Completion(env: Environment, run: Run, requirements: Json, sections: seq<Sections.Section>, now: string)
    : Result<Assembler.Document, Error>
  {
    match env.check(run.projectName, sections)
    case Err(e) => Err(e)
    case Ok(report) => env.assemble(run.projectId, run.projectName, sections, Some(report), requirements, now)
  }

  /** What the body of the `try` in `_run_generation` yields: the assembled document, or
      the first exception raised by the analysis, the retrieval, the sections, the
      compliance check or the assembly. */
  function Outcome(env: Environment, run: Run, now: string): Result<Assembler.Document, Error> {
    match Prepared(env, run)
    case Err(e) => Err(e)
    case Ok(prepared) => Completion(env, run, prepared.0, prepared.1, now)
  }

  /** In parallel mode a run whose analysis and retrieval succeed fails only at the
      compliance check or the assembly, never on a section. */
  lemma ParallelFailsOnlyOutsideSections(env: Environment, run: Run, now: string)
    requires env.parallel
    ensures var analysis := env.analyze(run.projectName, run.projectDescription, Requirements.AdditionalBlock(run.additional));
            (analysis.Ok? && env.retrieve(run.projectDescription, analysis.value).Ok? && Outcome(env, run, now).Err?) ==>
              var contexts := env.retrieve(run.projectDescription, analysis.value).value;
              var sections := Settled(Gathered(Step(env, run, analysis.value, contexts)));
              var checked := env.check(run.projectName, sections);
              checked.Err? || env.assemble(run.projectId, run.projectName, sections, Some(checked.value), analysis.value, now).Err?
  {
  }

  /** The loop that launches the ten section coroutines, with `gather` awaiting them
      in launch order. */
  method Gather(step: string -> Result<Sections.Section, Error>) returns (results: seq<Result<Sections.Section, Error>>)
    ensures results == Gathered(step)
  {
    results := [];
    var i := 1;
    while i <= 10
      invariant 1 <= i <= 11 && |results| == i - 1
      invariant forall k :: 0 <= k < |results| ==> results[k] == step(Str(k + 1))
    {
      results := results + [step(Str(i))];
      i := i + 1;
    }
  }

  /** The loop over `enumerate(results, 1)` that keeps each section or puts its
      placeholder in its place. */
  method SettleAll(outcomes: seq<Result<Sections.Section, Error>>) returns (sections: seq<Sections.Section>)
    ensures sections == Settled(outcomes)
  {
    sections := [];
    var j := 0;
    while j < |outcomes|
      invariant 0 <= j <= |outcomes| && |sections| == j
      invariant forall k :: 0 <= k < j ==> sections[k] == Settle(k + 1, outcomes[k])
    {
      match outcomes[j] {
        case Err(e) => sections := sections + [Placeholder(j + 1, e)];
        case Ok(s) => sections := sections + [s];
      }
      j := j + 1;
    }
  }

  /** The calls and tasks after the first `k` updates of `plan`, counted from the calls
      and tasks the run started with. */
  ghost predicate Reached(plan: seq<Update>, taskId: string, k: nat, baseCalls: seq<Call>, baseTasks: map<string, Task>,
                          now: string, calls: seq<Call>, tasks: map<string, Task>)
  {
    && k <= |plan|
    && calls == baseCalls + Stamp(taskId, plan[..k])
    && tasks == if taskId in baseTasks && k > 0
                then baseTasks[taskId := Apply(baseTasks[taskId], plan[k - 1], now)]
                else baseTasks
  }

  /** One more update of a plan moves the run one step on, provided the update before
      it kept the generation task processing with no error. */
  lemma ReachedNext(plan: seq<Update>, taskId: string, k: nat, baseCalls: seq<Call>, baseTasks: map<string, Task>,
                    now: string, calls: seq<Call>, tasks: map<string, Task>, calls': seq<Call>, tasks': map<string, Task>)
    requires Reached(plan, taskId, k, baseCalls, baseTasks, now, calls, tasks) && k < |plan|
    requires k > 0 ==> plan[k - 1].status == Processing && plan[k - 1].error.None?
    requires calls' == calls + [Call(taskId, plan[k])]
    requires tasks' == if taskId in tasks then tasks[taskId := Apply(tasks[taskId], plan[k], now)] else tasks
    ensures Reached(plan, taskId, k + 1, baseCalls, baseTasks, now, calls', tasks')
  {
    assert plan[..k + 1] == plan[..k] + [plan[k]];
    StampSnoc(taskId, plan[..k], plan[k]);
    if k > 0 && taskId in baseTasks {
      ProgressUpdateAbsorbed(baseTasks[taskId], plan[k - 1], plan[k], now);
    }
  }

  /** The first `n` updates of the section phase move the run from the plan's second
      update to its `2 + n`th. */
  lemma ReachedAfterSections(parallel: bool, taskId: string, n: nat, baseCalls: seq<Call>, baseTasks: map<string, Task>,
                             now: string, calls: seq<Call>, tasks: map<string, Task>, calls': seq<Call>, tasks': map<string, Task>)
    requires 1 <= n <= |MiddlePlan(parallel)|
    requires Reached(SuccessPlan(parallel), taskId, 2, baseCalls, baseTasks, now, calls, tasks)
    requires Reached(MiddlePlan(parallel), taskId, n, calls, tasks, now, calls', tasks')
    ensures Reached(SuccessPlan(parallel), taskId, 2 + n, baseCalls, baseTasks, now, calls', tasks')
  {
    MiddleMerged(parallel, taskId, n, baseTasks, now);
  }

  /** A run that made every update of the plan has its calls and the generation task the last
      update made. */
  lemma ReachedAll(plan: seq<Update>, taskId: string, baseCalls: seq<Call>, baseTasks: map<string, Task>,
                   now: string, calls: seq<Call>, tasks: map<string, Task>)
    requires plan != [] && Reached(plan, taskId, |plan|, baseCalls, baseTasks, now, calls, tasks)
    ensures calls == baseCalls + Stamp(taskId, plan)
    ensures tasks == if taskId in baseTasks then baseTasks[taskId := Apply(baseTasks[taskId], plan[|plan| - 1], now)] else baseTasks
  {
    assert plan[..|plan|] == plan;
  }

  /** The failure update after `k` updates of the plan that kept the generation task processing
      leaves the generation task as if the failure update were the only one. */
  lemma ReachedThenFailed(plan: seq<Update>, taskId: string, k: nat, baseCalls: seq<Call>, baseTasks: map<string, Task>,
                          now: string, calls: seq<Call>, tasks: map<string, Task>, e: Error, calls': seq<Call>, tasks': map<string, Task>)
    requires 1 <= k < |plan| && Reached(plan, taskId, k, baseCalls, baseTasks, now, calls, tasks)
    requires plan[k - 1].status == Processing && plan[k - 1].error.None?
    requires calls' == calls + [Call(taskId, FailureUpdate(e))]
    requires tasks' == if taskId in tasks then tasks[taskId := Apply(tasks[taskId], FailureUpdate(e), now)] else tasks
    ensures exists j :: (1 <= j < |plan| && calls' == baseCalls + Stamp(taskId, plan[..j]) + [Call(taskId, FailureUpdate(e))])
    ensures tasks' == if taskId in baseTasks then baseTasks[taskId := Apply(baseTasks[taskId], FailureUpdate(e), now)] else baseTasks
  {
    if taskId in baseTasks {
      ProgressUpdateAbsorbed(baseTasks[taskId], plan[k - 1], FailureUpdate(e), now);
    }
  }

  class GenerationService {
    const projects: Projects.ProjectStore
    const documents: Documents.DocumentStore
    const env: Environment
    /** The `generation_tasks` table, by id. */
    var tasks: map<string, Task>
    /** Every `_update_task` call made, in order. */
    ghost var calls: seq<Call>

    ghost predicate Valid()
      reads this, projects, documents
    {
      && projects.Valid() && documents.Valid()
      && forall id :: id in tasks ==> tasks[id].id == id
    }

    constructor(projects: Projects.ProjectStore, documents: Documents.DocumentStore, env: Environment)
      requires projects.Valid() && documents.Valid()
      ensures Valid()
      ensures this.projects == projects && this.documents == documents && this.env == env
      ensures tasks == map[] && calls == []
    {
      this.projects := projects;
      this.documents := documents;
      this.env := env;
      tasks := map[];
      calls := [];
    }

    /** `_update_task`: a task that is not found is left alone. */
    method UpdateTask(taskId: string, progress: real, step: string, status: string, error: Option<string>, now: string)
      requires Valid()
      modifies this
      ensures Valid()
      ensures calls == old(calls) + [Call(taskId, Update(progress, step, status, error))]
      ensures tasks == if taskId in old(tasks)
                       then old(tasks)[taskId := Apply(old(tasks)[taskId], Update(progress, step, status, error), now)]
                       else old(tasks)
    {
      if taskId in tasks {
        var task := tasks[taskId];
        task := task.(progress := progress, currentStep := Some(step), status := status);
        if error.Some? && error.value != [] {
          task := task.(errorMessage := error);
        }
        if status == Completed || status == Failed {
          task := task.(completedAt := Some(now));
        }
        tasks := tasks[taskId := task];
      }
      calls := calls + [Call(taskId, Update(progress, step, status, error))];
    }

    /** `get_task_status`. */
    function GetTaskStatus(taskId: string): (r: Option<Task>)
      reads this
      ensures r.Some? <==> taskId in tasks
      ensures r.Some? ==> r.value == tasks[taskId]
    {
      if taskId in tasks then Some(tasks[taskId]) else None
    }

    /** `start_generation`: an unknown project raises before anything is created;
        otherwise a processing task at progress 0.0 is created, the project is marked
        "generating", and the background run's arguments are returned with the generation task.
        The description defaults to "" and the additional requirements to none. */
    method StartGeneration(projectId: string, additional: Option<seq<(string, string)>>, taskId: string, now: string)
      returns (r: Result<(Task, Run), Error>)
      requires Valid() && taskId !in tasks
      modifies this, projects
      ensures Valid() && calls == old(calls) && projects.order == old(projects.order)
      ensures projectId !in old(projects.projects) ==>
                && r == Err(ProjectNotFound(projectId))
                && tasks == old(tasks) && projects.projects == old(projects.projects)
      ensures projectId in old(projects.projects) ==>
                var p := old(projects.projects)[projectId];
                && r == Ok((Task(taskId, projectId, Processing, 0.0, Some(StepInit), None, Some(now), None),
                            Run(taskId, p.id, p.name, p.description.GetOr([]), additional.GetOr([]))))
                && tasks == old(tasks)[taskId := r.value.0]
                && projects.projects == old(projects.projects)[projectId := p.(status := Generating)]
    {
      var found := projects.GetById(projectId);
      if found.Err? {
        return Err(found.error);
      }
      var project := found.value;
      var task := Task(taskId, projectId, Processing, 0.0, Some(StepInit), None, Some(now), None);
      tasks := tasks[taskId := task];
      var _ := projects.UpdateStatus(projectId, Generating);
      var run := Run(taskId, project.id, project.name, project.description.GetOr([]), additional.GetOr([]));
      r := Ok((task, run));
    }

    /** `_generate_sections_parallel`, with `step` the section agent bound to the
        run's arguments: one progress update, then the outcomes of all ten sections in
        launch order, each failure replaced by its placeholder. */
    method GenerateParallel(taskId: string, step: string -> Result<Sections.Section, Error>, now: string)
      returns (sections: seq<Sections.Section>)
      requires Valid()
      modifies this
      ensures Valid()
      ensures sections == Settled(Gathered(step))
      ensures calls == old(calls) + [Call(taskId, Progress(0.3, StepParallel))]
      ensures tasks == if taskId in old(tasks)
                       then old(tasks)[taskId := Apply(old(tasks)[taskId], Progress(0.3, StepParallel), now)]
                       else old(tasks)
    {
      UpdateTask(taskId, 0.3, StepParallel, Processing, None, now);
      var results := Gather(step);
      sections := SettleAll(results);
    }

    /** `_generate_sections_sequential`, with `step` as above: before section `i` the
        progress becomes 0.2 + 0.6·i/10; the first failing section raises out of the
        loop. */
    method GenerateSequential(taskId: string, step: string -> Result<Sections.Section, Error>, now: string)
      returns (r: Result<seq<Sections.Section>, Error>)
      requires Valid()
      modifies this
      ensures Valid()
      ensures r == RunAll(Template.StandardIds(), step)
      ensures 1 <= Attempted(Template.StandardIds(), step)
      ensures Reached(SequentialPlan(), taskId, Attempted(Template.StandardIds(), step), old(calls), old(tasks), now, calls, tasks)
    {
      var ids := Template.StandardIds();
      ghost var plan := SequentialPlan();
      var sections: seq<Sections.Section> := [];
      var i := 0;
      while i < 10
        invariant 0 <= i <= 10 && Valid()
        invariant RunAll(ids[..i], step) == Ok(sections)
        invariant Reached(plan, taskId, i, old(calls), old(tasks), now, calls, tasks)
      {
        ghost var calls0, tasks0 := calls, tasks;
        UpdateTask(taskId, SectionProgress(i + 1), StepSectionPrefix + Str(i + 1), Processing, None, now);
        SequentialPlanStep(i);
        ReachedNext(plan, taskId, i, old(calls), old(tasks), now, calls0, tasks0, calls, tasks);
        RunAllStep(ids, i, step);
        var result := step(Str(i + 1));
        if result.Err? {
          FirstFailure(ids, step, i);
          return Err(result.error);
        }
        sections := sections + [result.value];
        i := i + 1;
      }
      Finished(ids, step);
      r := Ok(sections);
    }

    /** The run's progress after the first `k` updates of the success plan, counted
        from the calls and tasks it started with. */
    ghost predicate At(taskId: string, k: nat, baseCalls: seq<Call>, baseTasks: map<string, Task>, now: string)
      reads this
    {
      Reached(SuccessPlan(env.parallel), taskId, k, baseCalls, baseTasks, now, calls, tasks)
    }

    /** An `_update_task` call that makes the plan's `k`th update. */
    method Checkpoint(taskId: string, progress: real, step: string, status: string, now: string,
                      ghost k: nat, ghost baseCalls: seq<Call>, ghost baseTasks: map<string, Task>)
      requires Valid() && At(taskId, k, baseCalls, baseTasks, now)
      requires k < |SuccessPlan(env.parallel)| && SuccessPlan(env.parallel)[k] == Update(progress, step, status, None)
      modifies this
      ensures Valid() && At(taskId, k + 1, baseCalls, baseTasks, now)
    {
      ghost var calls0, tasks0 := calls, tasks;
      UpdateTask(taskId, progress, step, status, None, now);
      SuccessPlanShape(env.parallel);
      ReachedNext(SuccessPlan(env.parallel), taskId, k, baseCalls, baseTasks, now, calls0, tasks0, calls, tasks);
    }

    /** `_run_generation`: on success the generation task runs through every update of the
        success plan, the document is saved and the project is completed; when any step
        raises, the updates made before it stand, the generation task is marked failed with the
        exception's message and so is the project, and no document is saved. */
    method RunGeneration(run: Run, docId: string, now: string)
      requires Valid() && run.projectId in projects.projects
      requires forall i :: 0 <= i < |documents.documents| ==> documents.documents[i].id != docId
      modifies this, projects, documents
      ensures Valid() && projects.order == old(projects.order)
      ensures var outcome := Outcome(env, run, now);
              var plan := SuccessPlan(env.parallel);
              var last := if outcome.Ok? then DoneUpdate else FailureUpdate(outcome.error);
              && (outcome.Ok? ==> calls == old(calls) + Stamp(run.taskId, plan))
              && (outcome.Err? ==>
                    exists k :: (1 <= k < |plan| &&
                                 calls == old(calls) + Stamp(run.taskId, plan[..k]) + [Call(run.taskId, FailureUpdate(outcome.error))]))
              && tasks == (if run.taskId in old(tasks)
                           then old(tasks)[run.taskId := Apply(old(tasks)[run.taskId], last, now)]
                           else old(tasks))
              && documents.documents == old(documents.documents) + (if outcome.Ok? then [Saved(docId, run.projectId, outcome.value)] else [])
              && projects.projects == old(projects.projects)[run.projectId :=
                                        old(projects.projects)[run.projectId].(status := if outcome.Ok? then Completed else Failed)]
    {
      var r, made := Attempt(run, docId, now);
      SuccessPlanShape(env.parallel);
      if r.Ok? {
        ReachedAll(SuccessPlan(env.parallel), run.taskId, old(calls), old(tasks), now, calls, tasks);
        return;
      }
      ghost var calls0, tasks0 := calls, tasks;
      var message := Message(r.error);
      UpdateTask(run.taskId, 0.0, StepFailedPrefix + message, Failed, Some(message), now);
      ReachedThenFailed(SuccessPlan(env.parallel), run.taskId, made, old(calls), old(tasks), now, calls0, tasks0,
                        r.error, calls, tasks);
      var _ := projects.UpdateStatus(run.projectId, Failed);
    }

    /** The body of the `try` in `_run_generation`: the analysis, the retrieval, the
        sections, the compliance check and the assembly, each announced by its progress
        update; the document is saved and the project completed only when all of them
        succeed. `made` counts the updates of the success plan that were made. */
    method Attempt(run: Run, docId: string, now: string) returns (r: Result<Assembler.Document, Error>, ghost made: nat)
      requires Valid() && run.projectId in projects.projects
      requires forall i :: 0 <= i < |documents.documents| ==> documents.documents[i].id != docId
      modifies this, projects, documents
      ensures Valid() && projects.order == old(projects.order)
      ensures r == Outcome(env, run, now)
      ensures At(run.taskId, made, old(calls), old(tasks), now)
      ensures r.Ok? ==> made == |SuccessPlan(env.parallel)|
      ensures r.Err? ==> 1 <= made < |SuccessPlan(env.parallel)|
      ensures documents.documents == old(documents.documents) + (if r.Ok? then [Saved(docId, run.projectId, r.value)] else [])
      ensures projects.projects == if r.Ok? then old(projects.projects)[run.projectId := old(projects.projects)[run.projectId].(status := Completed)]
                                   else old(projects.projects)
    {
      var prepared;
      prepared, made := Prepare(run, now);
      if prepared.Err? {
        return Err(prepared.error), made;
      }
      r, made := Finish(run, docId, prepared.value.0, prepared.value.1, now, old(calls), old(tasks));
    }

    /** The analysis, the retrieval and the sections, with their progress updates. */
    method Prepare(run: Run, now: string) returns (r: Result<(Json, seq<Sections.Section>), Error>, ghost made: nat)
      requires Valid()
      modifies this
      ensures Valid()
      ensures r == Prepared(env, run)
      ensures At(run.taskId, made, old(calls), old(tasks), now)
      ensures r.Ok? ==> made == 2 + |MiddlePlan(env.parallel)|
      ensures r.Err? ==> 1 <= made <= 2 + |MiddlePlan(env.parallel)|
    {
      ghost var parallel := env.parallel;
      MiddlePlanShape(parallel);
      PlanAt(parallel, 0);
      Checkpoint(run.taskId, 0.1, StepAnalysis, Processing, now, 0, old(calls), old(tasks));
      var additional := Requirements.AdditionalText(run.additional);
      var analysis := env.analyze(run.projectName, run.projectDescription, additional);
      if analysis.Err? {
        return Err(analysis.error), 1;
      }
      var requirements := analysis.value;

      PlanAt(parallel, 1);
      Checkpoint(run.taskId, 0.2, StepRetrieval, Processing, now, 1, old(calls), old(tasks));
      var retrieved := env.retrieve(run.projectDescription, requirements);
      if retrieved.Err? {
        return Err(retrieved.error), 2;
      }
      var contexts := retrieved.value;

      var generated;
      generated, made := GenerateSections(run, requirements, contexts, now, old(calls), old(tasks));
      if generated.Err? {
        return Err(generated.error), made;
      }
      r := Ok((requirements, generated.value));
    }

    /** The section phase in the configured mode, from the plan's second update on. */
    method GenerateSections(run: Run, requirements: Json, contexts: map<string, string>, now: string,
                            ghost baseCalls: seq<Call>, ghost baseTasks: map<string, Task>)
      returns (r: Result<seq<Sections.Section>, Error>, ghost made: nat)
      requires Valid() && At(run.taskId, 2, baseCalls, baseTasks, now)
      modifies this
      ensures Valid()
      ensures r == SectionsOf(env, run, requirements, contexts)
      ensures At(run.taskId, made, baseCalls, baseTasks, now)
      ensures 3 <= made <= 2 + |MiddlePlan(env.parallel)|
      ensures r.Ok? ==> made == 2 + |MiddlePlan(env.parallel)|
    {
      ghost var parallel := env.parallel;
      var step := Step(env, run, requirements, contexts);
      ghost var calls2, tasks2 := calls, tasks;
      if env.parallel {
        var sections := GenerateParallel(run.taskId, step, now);
        assert [Call(run.taskId, Progress(0.3, StepParallel))] == Stamp(run.taskId, MiddlePlan(parallel)[..1]);
        assert Reached(MiddlePlan(parallel), run.taskId, 1, calls2, tasks2, now, calls, tasks);
        ReachedAfterSections(parallel, run.taskId, 1, baseCalls, baseTasks, now, calls2, tasks2, calls, tasks);
        r, made := Ok(sections), 3;
      } else {
        r := GenerateSequential(run.taskId, step, now);
        made := 2 + Attempted(Template.StandardIds(), step);
        ReachedAfterSections(parallel, run.taskId, made - 2, baseCalls, baseTasks, now, calls2, tasks2, calls, tasks);
        if r.Ok? {
          AttemptedShape(Template.StandardIds(), step);
        }
      }
    }

    /** The compliance check and the assembly with their progress updates, then the
        saved document, the final update and the completed project. */
    method Finish(run: Run, docId: string, requirements: Json, sections: seq<Sections.Section>, now: string,
                  ghost baseCalls: seq<Call>, ghost baseTasks: map<string, Task>)
      returns (r: Result<Assembler.Document, Error>, ghost made: nat)
      requires Valid() && run.projectId in projects.projects
      requires forall i :: 0 <= i < |documents.documents| ==> documents.documents[i].id != docId
      requires At(run.taskId, |SuccessPlan(env.parallel)| - 3, baseCalls, baseTasks, now)
      modifies this, projects, documents
      ensures Valid() && projects.order == old(projects.order)
      ensures r == Completion(env, run, requirements, sections, now)
      ensures At(run.taskId, made, baseCalls, baseTasks, now)
      ensures r.Ok? ==> made == |SuccessPlan(env.parallel)|
      ensures r.Err? ==> |SuccessPlan(env.parallel)| - 3 < made < |SuccessPlan(env.parallel)|
      ensures documents.documents == old(documents.documents) + (if r.Ok? then [Saved(docId, run.projectId, r.value)] else [])
      ensures projects.projects == if r.Ok? then old(projects.projects)[run.projectId := old(projects.projects)[run.projectId].(status := Completed)]
                                   else old(projects.projects)
    {
      ghost var k := |SuccessPlan(env.parallel)| - 3;
      PlanAt(env.parallel, k);
      Checkpoint(run.taskId, 0.9, StepCompliance, Processing, now, k, baseCalls, baseTasks);
      var checked := env.check(run.projectName, sections);
      if checked.Err? {
        return Err(checked.error), k + 1;
      }
      r, made := AssembleAndSave(run, docId, requirements, sections, checked.value, now, baseCalls, baseTasks);
    }

    /** The assembly with its progress update, then the saved document, the final update
        and the completed project. */
    method AssembleAndSave(run: Run, docId: string, requirements: Json, sections: seq<Sections.Section>,
                           report: Compliance.Report, now: string, ghost baseCalls: seq<Call>, ghost baseTasks: map<string, Task>)
      returns (r: Result<Assembler.Document, Error>, ghost made: nat)
      requires Valid() && run.projectId in projects.projects
      requires forall i :: 0 <= i < |documents.documents| ==> documents.documents[i].id != docId
      requires At(run.taskId, |SuccessPlan(env.parallel)| - 2, baseCalls, baseTasks, now)
      modifies this, projects, documents
      ensures Valid() && projects.order == old(projects.order)
      ensures r == env.assemble(run.projectId, run.projectName, sections, Some(report), requirements, now)
      ensures At(run.taskId, made, baseCalls, baseTasks, now)
      ensures r.Ok? ==> made == |SuccessPlan(env.parallel)|
      ensures r.Err? ==> made == |SuccessPlan(env.parallel)| - 1
      ensures documents.documents == old(documents.documents) + (if r.Ok? then [Saved(docId, run.projectId, r.value)] else [])
      ensures projects.projects == if r.Ok? then old(projects.projects)[run.projectId := old(projects.projects)[run.projectId].(status := Completed)]
                                   else old(projects.projects)
    {
      ghost var k := |SuccessPlan(env.parallel)| - 2;
      PlanAt(env.parallel, k);
      Checkpoint(run.taskId, 0.95, StepAssembly, Processing, now, k, baseCalls, baseTasks);
      r := env.assemble(run.projectId, run.projectName, sections, Some(report), requirements, now);
      if r.Err? {
        return r, k + 1;
      }
      Save(run, docId, r.value, now, baseCalls, baseTasks);
      made := k + 2;
    }

    /** The document saved, the final update made and the project completed. */
    method Save(run: Run, docId: string, document: Assembler.Document, now: string,
                ghost baseCalls: seq<Call>, ghost baseTasks: map<string, Task>)
      requires Valid() && run.projectId in projects.projects
      requires forall i :: 0 <= i < |documents.documents| ==> documents.documents[i].id != docId
      requires At(run.taskId, |SuccessPlan(env.parallel)| - 1, baseCalls, baseTasks, now)
      modifies this, projects, documents
      ensures Valid() && projects.order == old(projects.order)
      ensures At(run.taskId, |SuccessPlan(env.parallel)|, baseCalls, baseTasks, now)
      ensures documents.documents == old(documents.documents) + [Saved(docId, run.projectId, document)]
      ensures projects.projects == old(projects.projects)[run.projectId := old(projects.projects)[run.projectId].(status := Completed)]
    {
      var _ := documents.Create(docId, run.projectId, document.sections, document.complianceScore,
                                Some(MetadataJson(document.metadata)));
      ghost var last := |SuccessPlan(env.parallel)| - 1;
      SuccessPlanShape(env.parallel);
      Checkpoint(run.taskId, 1.0, StepDone, Completed, now, last, baseCalls, baseTasks);
      var _ := projects.UpdateStatus(run.projectId, Completed);
    }
  }
}
