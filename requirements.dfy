/** The requirements analyst (src/agents/requirements_analyst.py): turns a project
    description and extra key/value requirements into a structured payload, routed as a
    generation-class task, recovering from an undecodable answer. */
module Requirements {
  import opened Wrappers
  import opened Text
  import opened Errors
  import opened Json
  import opened Router
  import opened Fences
  import Agents

  const Analyst: Agents.AgentInfo :=
    Agents.AgentInfo("requirements_analyst", "Аналітик вимог для технічних завдань КМУ №205", "аналітик вимог")

  const TaskType: string := "requirements_analysis"

  const AdditionalHeader: string := "\nДодаткові вимоги:\n"

  /** `REQUIREMENTS_SYSTEM_PROMPT`, and the part of `REQUIREMENTS_PROMPT_TEMPLATE`
      after its last placeholder. */
  const Texts: Agents.PromptTexts := Agents.PromptTexts(SystemPromptText, PromptTail)

  const SystemPromptText: string :=
    "Ти — досвідчений аналітик вимог для технічних завдань в державній сфері України.\n\nТвоя задача: проаналізувати опис проєкту та витягнути структуровані вимоги для генерації ТЗ згідно КМУ Постанова №205.\n\nДля кожного проєкту визнач:\n1. Тип системи (інформаційна, аналітична, портал послуг, тощо)\n2. Цільова аудиторія\n3. Основні функціональні вимоги\n4. Нефункціональні вимоги (продуктивність, безпека, доступність)\n5. Інтеграції з іншими системами\n6. Вимоги до захисту інформації\n\nВідповідай у форматі JSON."

  /** One extra requirement as the prompt lists it. */
  function EntryLine(entry: (string, string)): string {
    "- " + entry.0 + ": " + entry.1 + "\n"
  }

  function EntryLines(entries: seq<(string, string)>): (r: seq<string>)
    ensures |r| == |entries|
    ensures forall i :: 0 <= i < |r| ==> r[i] == EntryLine(entries[i])
  {
    seq(|entries|, i requires 0 <= i < |entries| => EntryLine(entries[i]))
  }

  /** The extra-requirements block of the prompt: nothing without entries, otherwise a
      header and one line per entry (dict order is the order of `entries`). */
  function AdditionalBlock(entries: seq<(string, string)>): string {
    if entries == [] then [] else AdditionalHeader + Concat(EntryLines(entries))
  }

  /** The loop in `_process` that builds the extra-requirements block. */
  method AdditionalText(entries: seq<(string, string)>) returns (text: string)
    ensures text == AdditionalBlock(entries)
  {
    text := [];
    if entries != [] {
      text := AdditionalHeader;
      var i := 0;
      while i < |entries|
        invariant 0 <= i <= |entries|
        invariant text == AdditionalHeader + Concat(EntryLines(entries[..i]))
      {
        assert EntryLines(entries[..i + 1]) == EntryLines(entries[..i]) + [EntryLine(entries[i])];
        ConcatSnoc(EntryLines(entries[..i]), EntryLine(entries[i]));
        text := text + EntryLine(entries[i]);
        i := i + 1;
      }
      assert entries[..i] == entries;
    }
  }

  /** The additional-requirements block reads back as its entries: one line per entry,
      in order, after the header. */
  lemma {:induction false} EntryLinesSplit(entries: seq<(string, string)>)
    requires entries != []
    ensures Concat(EntryLines(entries)) == EntryLine(entries[0]) + Concat(EntryLines(entries[1..]))
  {
    assert EntryLines(entries)[1..] == EntryLines(entries[1..]);
  }

  const PromptOpening: string := "Проаналізуй наступний проєкт та витягни структуровані вимоги:\n\nНазва проєкту: "

  /** `REQUIREMENTS_PROMPT_TEMPLATE` filled in. */
  function Prompt(texts: Agents.PromptTexts, projectName: string, projectDescription: string, additional: string): string {
    PromptOpening + projectName + "\nОпис: " + projectDescription + "\n" + additional + texts.closing
  }

  const PromptTail: string := "\n\nПоверни результат у форматі JSON з полями:\n{\n    \"system_type\": \"тип системи\",\n    \"target_audience\": \"цільова аудиторія\",\n    \"functional_requirements\": [\"список функціональних вимог\"],\n    \"non_functional_requirements\": [\"список нефункціональних вимог\"],\n    \"integrations\": [\"список інтеграцій\"],\n    \"security_requirements\": [\"вимоги до безпеки\"],\n    \"summary\": \"короткий підсумок вимог\"\n}"

  function AnalysisRequest(texts: Agents.PromptTexts, prompt: string): Request {
    Request(prompt, Some(texts.system), 0.3, 4096)
  }

  /** The payload kept when the answer does not decode: the raw (unstripped) text as
      the summary, flagged as raw. */
  function Fallback(responseText: string): Json {
    JObj(map["summary" := JStr(responseText), "raw_response" := JBool(true)])
  }

  /** How an answer becomes requirements: the decoded payload, or the fallback. */
  function Interpret(responseText: string, decode: Decoder): (r: Json)
    ensures DecodeResponse(responseText, decode).Some? ==> r == DecodeResponse(responseText, decode).value
    ensures DecodeResponse(responseText, decode).None? ==>
              r.JObj? && r.fields.Keys == {"summary", "raw_response"}
              && r.fields["summary"] == JStr(responseText) && r.fields["raw_response"] == JBool(true)
  {
    match DecodeResponse(responseText, decode)
    case Some(j) => j
    case None => Fallback(responseText)
  }

  /** `RequirementsAnalystAgent._process`, given the additional-requirements block
      `AdditionalBlock` gives. Only the router can make it raise. */
  function Analyze(texts: Agents.PromptTexts, projectName: string, projectDescription: string, additional: string,
                   backends: Backends, decode: Decoder): (r: Result<Json, Error>)
    ensures var req := AnalysisRequest(texts, Prompt(texts, projectName, projectDescription, additional));
            var first := backends.mamay(req);
            var answered := if first.Err? && first.error.Llm? then backends.claude(req) else first;
            && (answered.Ok? ==> r == Ok(Interpret(answered.value.text, decode)))
            && (answered.Err? ==> r == Err(answered.error))
  {
    NotComplianceClass();
    var routed := Route(TaskType, AnalysisRequest(texts, Prompt(texts, projectName, projectDescription, additional)),
                        backends.mamay, backends.claude);
    match routed.outcome
    case Ok(response) => Ok(Interpret(response.text, decode))
    case Err(e) => Err(e)
  }

  /** The analysis is a generation-class task: MamayLM is asked first, and a failure of
      the analysis is always a failure of the routed call, never of parsing. */
  lemma AnalysisRoutedAsGeneration(texts: Agents.PromptTexts, projectName: string, projectDescription: string,
                                   additional: string, backends: Backends, decode: Decoder)
    ensures var req := AnalysisRequest(texts, Prompt(texts, projectName, projectDescription, additional));
            var routed := Route(TaskType, req, backends.mamay, backends.claude);
            && routed.calls[0] == Call(Mamay, req)
            && (Analyze(texts, projectName, projectDescription, additional, backends, decode).Err? <==> routed.outcome.Err?)
  {
    NotComplianceClass();
  }

  lemma NotComplianceClass()
    ensures TaskType !in ComplianceTasks
  {
    assert TaskType[0] == 'r';
    assert "compliance_check"[0] == 'c' && "quality_validation"[0] == 'q' && "structure_review"[0] == 's';
  }
}
