/** The section generator (src/agents/section_generator.py): writes one section of the
    document from the project, its analysed requirements and the retrieved context,
    and all template sections in order. */
module Sections {
  import opened Wrappers
  import opened Text
  import opened Errors
  import opened Json
  import opened Router
  import opened Template
  import opened Runs
  import Agents

  datatype Subsection = Subsection(id: string, title: string, content: string)

  /** Which backend wrote a section and what it cost; the cleaned sections the document
      keeps carry none. */
  datatype Provenance = Provenance(provider: string, tokensUsed: int)

  /** A section record as it moves through the pipeline. */
  datatype Section = Section(
    id: string, title: string, content: string, subsections: seq<Subsection>, provenance: Option<Provenance>)

  const Generator: Agents.AgentInfo :=
    Agents.AgentInfo("section_generator", "Генерація секцій ТЗ згідно КМУ №205", "технічний письменник ТЗ")

  const TaskType: string := "section_generation"

  /** `SECTION_SYSTEM_PROMPT`, and the part of `SECTION_PROMPT_TEMPLATE` after its
      last placeholder. */
  const Texts: Agents.PromptTexts := Agents.PromptTexts(SystemPromptText, PromptTail)

  const SystemPromptText: string :=
    "Ти — експерт зі складання технічних завдань згідно КМУ Постанова №205.\n\nПравила:\n1. Писати виключно українською мовою (офіційно-діловий стиль)\n2. Використовувати термінологію з нормативних документів України\n3. Конкретизувати вимоги (не загальні фрази, а конкретні параметри)\n4. Структурувати текст з нумерованими пунктами\n5. Враховувати контекст з попередніх ТЗ (RAG)"

  const NoRequirements: string := "Вимоги не уточнено."
  const NoContext: string := "Контекст не знайдено."
  const SummaryLabel: string := "Загальний опис: "
  const FunctionalHeading: string := "Функціональні вимоги:"
  const NonFunctionalHeading: string := "Нефункціональні вимоги:"
  const SecurityHeading: string := "Вимоги до безпеки:"
  const SubsectionsHeader: string := "Секція повинна містити наступні підсекції:"

  // ---------------------------------------------------------------- requirements text

  function Bullet(item: string): string {
    "  - " + item
  }

  function Bullets(items: seq<string>): (r: seq<string>)
    ensures |r| == |items|
    ensures forall k :: 0 <= k < |r| ==> r[k] == Bullet(items[k])
  {
    seq(|items|, k requires 0 <= k < |items| => Bullet(items[k]))
  }

  /** A heading followed by one bullet per item, for a present, non-empty list. */
  function Group(heading: string, items: Option<seq<string>>): seq<string> {
    match items
    case Some(l) => [heading] + Bullets(l)
    case None => []
  }

  function SummaryLines(requirements: Object): seq<string> {
    match NonEmptyText(requirements, "summary")
    case Some(s) => [SummaryLabel + s]
    case None => []
  }

  /** The lines `_format_requirements` collects in `parts`. */
  function RequirementLines(requirements: Object): seq<string> {
    SummaryLines(requirements)
      + Group(FunctionalHeading, NonEmptyList(requirements, "functional_requirements"))
      + Group(NonFunctionalHeading, NonEmptyList(requirements, "non_functional_requirements"))
      + Group(SecurityHeading, NonEmptyList(requirements, "security_requirements"))
  }

  function RequirementsText(requirements: Object): string {
    var lines := RequirementLines(requirements);
    if lines == [] then NoRequirements else Join(lines, "\n")
  }

  /** `if items := requirements.get(key): parts.append(heading); for req in items: ...`:
      the heading and one bullet per item, appended only for a present, non-empty list. */
  method AppendGroup(parts: seq<string>, heading: string, items: Option<seq<string>>) returns (r: seq<string>)
    ensures r == parts + Group(heading, items)
  {
    r := parts;
    if items.Some? {
      var l := items.value;
      r := r + [heading];
      var k := 0;
      while k < |l|
        invariant 0 <= k <= |l|
        invariant r == parts + [heading] + Bullets(l[..k])
      {
        assert Bullets(l[..k + 1]) == Bullets(l[..k]) + [Bullet(l[k])];
        r := r + [Bullet(l[k])];
        k := k + 1;
      }
      assert l[..k] == l;
    }
  }

  /** `SectionGeneratorAgent._format_requirements`. */
  method FormatRequirements(requirements: Object) returns (text: string)
    ensures text == RequirementsText(requirements)
  {
    var parts := SummaryLines(requirements);
    parts := AppendGroup(parts, FunctionalHeading, NonEmptyList(requirements, "functional_requirements"));
    parts := AppendGroup(parts, NonFunctionalHeading, NonEmptyList(requirements, "non_functional_requirements"));
    parts := AppendGroup(parts, SecurityHeading, NonEmptyList(requirements, "security_requirements"));
    text := if parts == [] then NoRequirements else Join(parts, "\n");
  }

  /** The placeholder stands in exactly when the requirements give nothing to list: no
      non-empty summary and no non-empty requirement list. */
  lemma RequirementsPlaceholder(requirements: Object)
    ensures RequirementLines(requirements) == [] <==>
              && NonEmptyText(requirements, "summary").None?
              && NonEmptyList(requirements, "functional_requirements").None?
              && NonEmptyList(requirements, "non_functional_requirements").None?
              && NonEmptyList(requirements, "security_requirements").None?
    ensures RequirementLines(requirements) == [] ==> RequirementsText(requirements) == NoRequirements
  {
  }

  /** A present group placed after `front` puts its heading right after `front` and its
      items' bullets after that, in order. */
  lemma GroupPlaced(front: seq<string>, heading: string, l: seq<string>, rest: seq<string>)
    ensures var lines := front + Group(heading, Some(l)) + rest;
            && |front| + |l| < |lines|
            && lines[|front|] == heading
            && forall k :: 0 <= k < |l| ==> lines[|front| + 1 + k] == Bullet(l[k])
  {
    var lines := front + Group(heading, Some(l)) + rest;
    forall k | 0 <= k < |l| ensures lines[|front| + 1 + k] == Bullet(l[k]) {
      assert lines[|front| + 1 + k] == Bullets(l)[k];
    }
  }

  /** Every functional requirement is listed, as its own bullet, right after its
      heading and in its original order; a summary, when given, is the first line. */
  lemma FunctionalRequirementsListed(requirements: Object)
    ensures NonEmptyText(requirements, "summary").Some? ==>
              RequirementLines(requirements)[0] == SummaryLabel + NonEmptyText(requirements, "summary").value
    ensures NonEmptyList(requirements, "functional_requirements").Some? ==>
              var l := NonEmptyList(requirements, "functional_requirements").value;
              var lines := RequirementLines(requirements);
              var j := |SummaryLines(requirements)|;
              && j + |l| < |lines|
              && lines[j] == FunctionalHeading
              && forall k :: 0 <= k < |l| ==> lines[j + 1 + k] == Bullet(l[k])
  {
    var functional := NonEmptyList(requirements, "functional_requirements");
    if functional.Some? {
      GroupPlaced(SummaryLines(requirements), FunctionalHeading, functional.value,
                  Group(NonFunctionalHeading, NonEmptyList(requirements, "non_functional_requirements"))
                  + Group(SecurityHeading, NonEmptyList(requirements, "security_requirements")));
    }
  }

  // ---------------------------------------------------------------- subsections

  function SubsectionLine(sub: SubsectionInfo): string {
    "  " + sub.id + ". " + sub.title + ": " + sub.description
  }

  function SubsectionLines(subs: seq<SubsectionInfo>): (r: seq<string>)
    ensures |r| == |subs|
    ensures forall k :: 0 <= k < |r| ==> r[k] == SubsectionLine(subs[k])
  {
    seq(|subs|, k requires 0 <= k < |subs| => SubsectionLine(subs[k]))
  }

  function SubsectionsInstruction(subs: seq<SubsectionInfo>): string {
    if subs == [] then [] else Join([SubsectionsHeader] + SubsectionLines(subs), "\n")
  }

  /** `SectionGeneratorAgent._format_subsections_instruction`. */
  method FormatSubsectionsInstruction(subs: seq<SubsectionInfo>) returns (text: string)
    ensures text == SubsectionsInstruction(subs)
  {
    if subs == [] {
      return [];
    }
    var lines := [SubsectionsHeader];
    var k := 0;
    while k < |subs|
      invariant 0 <= k <= |subs|
      invariant lines == [SubsectionsHeader] + SubsectionLines(subs[..k])
    {
      assert SubsectionLines(subs[..k + 1]) == SubsectionLines(subs[..k]) + [SubsectionLine(subs[k])];
      lines := lines + [SubsectionLine(subs[k])];
      k := k + 1;
    }
    assert subs[..k] == subs;
    text := Join(lines, "\n");
  }

  /** The instruction is empty exactly for a section without subsections, and otherwise
      opens with the fixed header. */
  lemma InstructionEmptyIffNoSubsections(subs: seq<SubsectionInfo>)
    ensures SubsectionsInstruction(subs) == [] <==> subs == []
    ensures subs != [] ==> SubsectionsHeader <= SubsectionsInstruction(subs)
  {
    if subs != [] {
      var lines := [SubsectionsHeader] + SubsectionLines(subs);
      assert lines[0] == SubsectionsHeader;
      assert Join(lines, "\n") == SubsectionsHeader + "\n" + Join(lines[1..], "\n");
    }
  }

  // ---------------------------------------------------------------- one section

  /** `KMU_205_STRUCTURE.get(id, {}).get("title", f"Секція {id}")`. */
  function SectionTitle(t: Template, sectionId: string): string {
    if sectionId in t.titles then t.titles[sectionId] else "Секція " + sectionId
  }

  function Prompt(texts: Agents.PromptTexts, sectionId: string, title: string, projectName: string, projectDescription: string,
                  requirementsText: string, ragContext: string, instruction: string): string {
    PromptOpening + sectionId + ". " + title + PromptProject + projectName + PromptDescription + projectDescription
      + PromptRequirements + requirementsText + PromptContext + ragContext + "\n\n" + instruction + texts.closing
  }

  const PromptOpening: string := "Згенеруй секцію \""
  const PromptProject: string := "\" технічного завдання.\n\nПроєкт: "
  const PromptDescription: string := "\nОпис: "
  const PromptRequirements: string := "\n\nВимоги:\n"
  const PromptContext: string := "\n\nКонтекст з попередніх ТЗ:\n"
  const PromptTail: string :=
    "\n\nВажливо:\n- Текст повинен бути конкретним та специфічним для даного проєкту\n- Використовуй офіційно-діловий стиль\n- Кожен пункт має бути чітко сформульований\n- Обсяг: 300-800 слів для секції"

  /** `rag_context or "Контекст не знайдено."` */
  function ContextOrPlaceholder(ragContext: string): string {
    if ragContext == [] then NoContext else ragContext
  }

  /** The request `_process` routes for one section. */
  function SectionRequest(texts: Agents.PromptTexts, t: Template, sectionId: string, projectName: string, projectDescription: string,
                          requirements: Object, ragContext: string): Request
  {
    var prompt := Prompt(texts, sectionId, SectionTitle(t, sectionId), projectName, projectDescription,
                         RequirementsText(requirements), ContextOrPlaceholder(ragContext),
                         SubsectionsInstruction(SubsectionsOf(t, sectionId)));
    Request(prompt, Some(texts.system), 0.7, 4096)
  }

  /** The template's subsections, each with empty content. */
  function Stubs(subs: seq<SubsectionInfo>): (r: seq<Subsection>)
    ensures |r| == |subs|
    ensures forall k :: 0 <= k < |r| ==> r[k] == Subsection(subs[k].id, subs[k].title, [])
  {
    seq(|subs|, k requires 0 <= k < |subs| => Subsection(subs[k].id, subs[k].title, []))
  }

  /** `SectionGeneratorAgent._process`: formatting the requirements needs an object (a
      decoded list or string has no `.get`); after that only the routed call can fail. */
  function Generate(texts: Agents.PromptTexts, t: Template, sectionId: string, projectName: string, projectDescription: string,
                    requirements: Json, ragContext: string, backends: Backends): (r: Result<Section, Error>)
    ensures !requirements.JObj? ==> r == Err(NoGetError(requirements))
    ensures r.Ok? ==>
              && r.value.id == sectionId
              && r.value.title == SectionTitle(t, sectionId)
              && |r.value.subsections| == |SubsectionsOf(t, sectionId)|
              && r.value.provenance.Some?
  {
    if !requirements.JObj? then Err(NoGetError(requirements))
    else
      var request := SectionRequest(texts, t, sectionId, projectName, projectDescription, requirements.fields, ragContext);
      match Route(TaskType, request, backends.mamay, backends.claude).outcome
      case Err(e) => Err(e)
      case Ok(response) =>
        Ok(Section(sectionId, SectionTitle(t, sectionId), response.text,
                   Stubs(SubsectionsOf(t, sectionId)), Some(Provenance(response.provider, response.tokensUsed))))
  }

  /** The section's text is what the routed backend answered, asked first of MamayLM;
      its subsections mirror the template's, in order, with no content yet. */
  lemma GeneratedSectionShape(texts: Agents.PromptTexts, t: Template, sectionId: string, projectName: string, projectDescription: string,
                              requirements: Object, ragContext: string, backends: Backends)
    ensures var request := SectionRequest(texts, t, sectionId, projectName, projectDescription, requirements, ragContext);
            var routed := Route(TaskType, request, backends.mamay, backends.claude);
            var r := Generate(texts, t, sectionId, projectName, projectDescription, JObj(requirements), ragContext, backends);
            && routed.calls[0] == Call(Mamay, request)
            && (r.Ok? <==> routed.outcome.Ok?)
            && (r.Err? ==> r.error == routed.outcome.error)
            && (r.Ok? ==>
                  && r.value.content == routed.outcome.value.text
                  && r.value.provenance == Some(Provenance(routed.outcome.value.provider, routed.outcome.value.tokensUsed))
                  && forall k :: 0 <= k < |r.value.subsections| ==>
                       r.value.subsections[k].id == SubsectionsOf(t, sectionId)[k].id
                       && r.value.subsections[k].content == [])
  {
    NotComplianceClass();
  }

  lemma NotComplianceClass()
    ensures TaskType !in ComplianceTasks
  {
    assert TaskType[0] == 's' && TaskType[1] == 'e';
    assert "structure_review"[1] == 't';
    assert "compliance_check"[0] == 'c' && "quality_validation"[0] == 'q';
  }

  /** An empty context and the explicit placeholder produce the same section: the
      model is never shown an empty context block. */
  lemma EmptyContextIsPlaceholder(texts: Agents.PromptTexts, t: Template, sectionId: string, projectName: string, projectDescription: string,
                                  requirements: Json, backends: Backends)
    ensures Generate(texts, t, sectionId, projectName, projectDescription, requirements, [], backends)
         == Generate(texts, t, sectionId, projectName, projectDescription, requirements, NoContext, backends)
  {
    assert ContextOrPlaceholder([]) == ContextOrPlaceholder(NoContext);
  }

  // ---------------------------------------------------------------- all sections

  function ContextFor(contexts: map<string, string>, sectionId: string): string {
    if sectionId in contexts then contexts[sectionId] else []
  }

  /** Generating the section with a given id, as `generate_all_sections` calls it. */
  function SectionStep(texts: Agents.PromptTexts, t: Template, projectName: string, projectDescription: string, requirements: Json,
                       contexts: map<string, string>, backends: Backends): string -> Result<Section, Error>
  {
    id => Generate(texts, t, id, projectName, projectDescription, requirements, ContextFor(contexts, id), backends)
  }

  /** `SectionGeneratorAgent.generate_all_sections`: every template section in numeric
      order, one after another; the first failure is raised and ends the run. */
  method GenerateAll(texts: Agents.PromptTexts, t: Template, projectName: string, projectDescription: string, requirements: Json,
                     contexts: map<string, string>, backends: Backends) returns (r: Result<seq<Section>, Error>)
    ensures r == RunAll(t.ids, SectionStep(texts, t, projectName, projectDescription, requirements, contexts, backends))
  {
    r := RunInOrder(t.ids, SectionStep(texts, t, projectName, projectDescription, requirements, contexts, backends));
  }

  /** A complete run holds one section per template id, in template order, each with
      its template title; a failed run is the failure of the first section that
      failed, all before it having succeeded. */
  lemma GenerateAllShape(texts: Agents.PromptTexts, t: Template, projectName: string, projectDescription: string, requirements: Json,
                         contexts: map<string, string>, backends: Backends)
    ensures var step := SectionStep(texts, t, projectName, projectDescription, requirements, contexts, backends);
            var r := RunAll(t.ids, step);
            && (r.Ok? ==> |r.value| == |t.ids| && forall i :: 0 <= i < |t.ids| ==>
                  r.value[i].id == t.ids[i] && r.value[i].title == SectionTitle(t, t.ids[i]))
            && (r.Err? ==> exists k :: && 0 <= k < |t.ids|
                                      && (forall j :: 0 <= j < k ==> step(t.ids[j]).Ok?)
                                      && step(t.ids[k]) == Err(r.error))
  {
    var step := SectionStep(texts, t, projectName, projectDescription, requirements, contexts, backends);
    var r := RunAll(t.ids, step);
    RunAllOk(t.ids, step);
    RunAllErr(t.ids, step);
    if r.Ok? {
      forall i | 0 <= i < |t.ids|
        ensures r.value[i].id == t.ids[i] && r.value[i].title == SectionTitle(t, t.ids[i])
      {
        var g := Generate(texts, t, t.ids[i], projectName, projectDescription, requirements, ContextFor(contexts, t.ids[i]), backends);
        assert step(t.ids[i]) == g;
      }
    }
  }
}
