/** The compliance checker (src/agents/compliance_checker.py): a structural check of
    the mandatory sections that needs no model, a semantic check routed to the
    compliance-class backend, and the merge of the two into one report. */
module Compliance {
  import opened Wrappers
  import opened Text
  import opened Errors
  import opened Json
  import opened Router
  import opened Fences
  import opened Template
  import opened Sections
  import Agents

  const Checker: Agents.AgentInfo :=
    Agents.AgentInfo("compliance_checker", "Перевірка відповідності ТЗ нормам КМУ №205", "експерт з нормативної відповідності")

  const TaskType: string := "compliance_check"

  /** `COMPLIANCE_SYSTEM_PROMPT`, and the part of `COMPLIANCE_PROMPT_TEMPLATE` after its
      last placeholder. */
  const Texts: Agents.PromptTexts := Agents.PromptTexts(SystemPromptText, PromptTail)

  const SystemPromptText: string :=
    "Ти — експерт з нормативно-правової відповідності технічних завдань в Україні.\n\nТвоя задача: перевірити технічне завдання на відповідність КМУ Постанова №205.\n\nОціни:\n1. Наявність усіх обов'язкових секцій (1-8)\n2. Повноту кожної секції (чи є всі підсекції)\n3. Якість формулювань (офіційно-діловий стиль)\n4. Конкретність вимог (не загальні фрази)\n5. Відповідність термінології\n\nПоверни оцінку у форматі JSON."

  const PromptOpening: string := "Перевір наступне технічне завдання на відповідність КМУ Постанова №205.\n\nПроєкт: "
  const PromptSections: string := "\n\nСекції документу:\n"
  const PromptMandatory: string := "\n\nОбов'язкові секції згідно КМУ №205 (1-8):\n"
  const PromptTail: string :=
    "\n\nПоверни результат у форматі JSON:\n{\n    \"compliance_score\": 0.0-1.0,\n    \"missing_sections\": [\"список відсутніх секцій\"],\n    \"incomplete_sections\": [\"секції без підсекцій\"],\n    \"warnings\": [\"попередження щодо якості\"],\n    \"recommendations\": [\"рекомендації для покращення\"],\n    \"section_scores\": {\n        \"1\": 0.0-1.0,\n        \"2\": 0.0-1.0\n    }\n}"

  // ---------------------------------------------------------------- rounding

  /** `round(x * 100)` with ties to the even neighbour, on the exact value of `x`. */
  function Hundredths(x: real): (n: int)
    ensures x * 100.0 - 0.5 <= n as real <= x * 100.0 + 0.5
  {
    var f := (x * 100.0).Floor;
    var frac := x * 100.0 - f as real;
    if frac > 0.5 then f + 1
    else if frac < 0.5 then f
    else if f % 2 == 0 then f else f + 1
  }

  /** `round(x, 2)`. */
  function Round2(x: real): (r: real)
    ensures x - 0.005 <= r <= x + 0.005
    ensures 0.0 <= x <= 1.0 ==> 0.0 <= r <= 1.0
  {
    var n := Hundredths(x);
    assert 0.0 <= x <= 1.0 ==> 0 <= n <= 100;
    n as real / 100.0
  }

  /** A value already on the two-decimal grid is left alone. */
  lemma Round2OnGrid(n: int)
    ensures Round2(n as real / 100.0) == n as real / 100.0
  {
    var x := n as real / 100.0;
    assert x * 100.0 == n as real;
    assert (x * 100.0).Floor == n;
  }

  /** Three of eight is an exact tie at two decimals, and goes to the even neighbour. */
  lemma ThreeEighthsRoundsToEven()
    ensures Round2(3.0 / 8.0) == 0.38
  {
    var x := 3.0 / 8.0;
    assert x * 100.0 == 37.5;
    assert (x * 100.0).Floor == 37;
  }

  // ---------------------------------------------------------------- structural check

  /** `{s.get("id") for s in sections}` */
  function PresentIds(sections: seq<Section>): set<string> {
    set i | 0 <= i < |sections| :: sections[i].id
  }

  /** `[sid for sid in mandatory if sid not in present]` */
  function Missing(mandatory: seq<string>, present: set<string>): (r: seq<string>)
    ensures |r| <= |mandatory|
    ensures forall x :: x in r <==> x in mandatory && x !in present
  {
    if mandatory == [] then []
    else (if mandatory[0] in present then [] else [mandatory[0]]) + Missing(mandatory[1..], present)
  }

  /** The missing ids keep the mandatory order: the filter distributes over concatenation. */
  lemma {:induction false} MissingKeepsOrder(a: seq<string>, b: seq<string>, present: set<string>)
    ensures Missing(a + b, present) == Missing(a, present) + Missing(b, present)
  {
    if a != [] {
      assert (a + b)[0] == a[0];
      assert (a + b)[1..] == a[1..] + b;
      MissingKeepsOrder(a[1..], b, present);
    } else {
      assert a + b == b;
    }
  }

  /** `(M - k) / M`, and 1.0 when there are no mandatory ids. */
  function Ratio(total: nat, missing: nat): (r: real)
    requires missing <= total
    ensures 0.0 <= r <= 1.0
  {
    if total == 0 then 1.0 else (total - missing) as real / total as real
  }

  datatype Structural = Structural(score: real, missing: seq<string>, present: set<string>)

  /** `ComplianceCheckerAgent._structural_check`. */
  function StructuralCheck(mandatory: seq<string>, sections: seq<Section>): (r: Structural)
    ensures forall x :: x in r.missing <==> x in mandatory && x !in PresentIds(sections)
    ensures r.present == PresentIds(sections)
    ensures 0.0 <= r.score <= 1.0
  {
    var present := PresentIds(sections);
    var missing := Missing(mandatory, present);
    Structural(Round2(Ratio(|mandatory|, |missing|)), missing, present)
  }

  /** With some but fewer than 200 mandatory ids, a missing one keeps the ratio below
      0.995 and a present one keeps it above 0.005. */
  lemma RatioAwayFromEnds(m: nat, k: nat)
    requires 0 < m < 200 && k <= m
    ensures 0 < k ==> Ratio(m, k) < 0.995
    ensures k < m ==> Ratio(m, k) > 0.005
  {
    var p := (m - k) as real;
    var q := m as real;
    if 0 < k {
      QuotientBelow(p, q, 0.995);
    }
    if k < m {
      QuotientAbove(p, q, 0.005);
    }
  }

  lemma QuotientBelow(p: real, q: real, c: real)
    requires q > 0.0 && p < c * q
    ensures p / q < c
  {
  }

  lemma QuotientAbove(p: real, q: real, c: real)
    requires q > 0.0 && p > c * q
    ensures p / q > c
  {
  }

  /** Nothing missing gives a full score; nothing present gives zero and every mandatory
      id missing. For fewer than 200 mandatory ids, where rounding to two decimals cannot
      reach either end from inside, both are exact characterisations. */
  lemma StructuralScoreEnds(mandatory: seq<string>, sections: seq<Section>)
    ensures var r := StructuralCheck(mandatory, sections);
            && (r.missing == [] ==> r.score == 1.0)
            && (sections == [] ==> r.missing == mandatory && (mandatory != [] ==> r.score == 0.0))
            && (0 < |mandatory| < 200 ==> (r.score == 1.0 <==> r.missing == []))
            && (0 < |mandatory| < 200 ==> (r.score == 0.0 <==> |r.missing| == |mandatory|))
  {
    var present := PresentIds(sections);
    var missing := Missing(mandatory, present);
    var m := |mandatory|;
    var k := |missing|;
    if k == 0 {
      assert Ratio(m, k) == 1.0;
      Round2OnGrid(100);
    }
    if m > 0 && k == m {
      assert Ratio(m, k) == 0.0;
      Round2OnGrid(0);
    }
    if 0 < m < 200 {
      RatioAwayFromEnds(m, k);
    }
    if sections == [] {
      assert present == {};
      NothingPresentMissesAll(mandatory);
    }
  }

  lemma {:induction false} NothingPresentMissesAll(mandatory: seq<string>)
    ensures Missing(mandatory, {}) == mandatory
  {
    if mandatory != [] {
      NothingPresentMissesAll(mandatory[1..]);
    }
  }

  /** Presence is a set: repeating a section changes neither the score nor the missing ids. */
  lemma DuplicateSectionIrrelevant(mandatory: seq<string>, sections: seq<Section>, i: nat)
    requires i < |sections|
    ensures StructuralCheck(mandatory, sections + [sections[i]]) == StructuralCheck(mandatory, sections)
  {
    var extended := sections + [sections[i]];
    assert PresentIds(extended) == PresentIds(sections) by {
      forall x | x in PresentIds(extended) ensures x in PresentIds(sections) {
        var j :| 0 <= j < |extended| && extended[j].id == x;
        if j == |sections| {
          assert sections[i].id == x;
        } else {
          assert sections[j].id == x;
        }
      }
      forall x | x in PresentIds(sections) ensures x in PresentIds(extended) {
        var j :| 0 <= j < |sections| && sections[j].id == x;
        assert extended[j].id == x;
      }
    }
  }

  // ---------------------------------------------------------------- prompt parts

  const PreviewLimit: nat := 500
  const Ellipsis: string := "..."

  /** `content[:500] + "..." if len(content) > 500 else content` */
  function Preview(content: string): (r: string)
    ensures |content| <= PreviewLimit ==> r == content
    ensures |content| > PreviewLimit ==> |r| == PreviewLimit + |Ellipsis|
    ensures |content| > PreviewLimit ==> r == content[..PreviewLimit] + Ellipsis
    ensures Take(content, PreviewLimit) <= r
  {
    if |content| > PreviewLimit then content[..PreviewLimit] + Ellipsis else content
  }

  function SectionBlock(s: Section): string {
    "\n--- Секція " + s.id + ": " + s.title + " ---\n" + Preview(s.content)
  }

  function SectionBlocks(sections: seq<Section>): (r: seq<string>)
    ensures |r| == |sections|
    ensures forall i :: 0 <= i < |r| ==> r[i] == SectionBlock(sections[i])
  {
    seq(|sections|, i requires 0 <= i < |sections| => SectionBlock(sections[i]))
  }

  function SectionsText(sections: seq<Section>): string {
    Join(SectionBlocks(sections), "\n")
  }

  /** `ComplianceCheckerAgent._format_sections`. */
  method FormatSections(sections: seq<Section>) returns (text: string)
    ensures text == SectionsText(sections)
  {
    var parts: seq<string> := [];
    var i := 0;
    while i < |sections|
      invariant 0 <= i <= |sections|
      invariant parts == SectionBlocks(sections[..i])
    {
      assert SectionBlocks(sections[..i + 1]) == SectionBlocks(sections[..i]) + [SectionBlock(sections[i])];
      parts := parts + [SectionBlock(sections[i])];
      i := i + 1;
    }
    assert sections[..i] == sections;
    text := Join(parts, "\n");
  }

  function MandatoryLine(t: Template, id: string): string {
    id + ". " + (if id in t.titles then t.titles[id] else [])
  }

  function MandatoryLines(t: Template): (r: seq<string>)
    ensures |r| == |t.mandatory|
    ensures forall i :: 0 <= i < |r| ==> r[i] == MandatoryLine(t, t.mandatory[i])
  {
    seq(|t.mandatory|, i requires 0 <= i < |t.mandatory| => MandatoryLine(t, t.mandatory[i]))
  }

  function MandatoryText(t: Template): string {
    Join(MandatoryLines(t), "\n")
  }

  /** `ComplianceCheckerAgent._format_mandatory_sections`. */
  method FormatMandatory(t: Template) returns (text: string)
    ensures text == MandatoryText(t)
  {
    var lines: seq<string> := [];
    var i := 0;
    while i < |t.mandatory|
      invariant 0 <= i <= |t.mandatory|
      invariant lines == MandatoryLines(t)[..i]
    {
      assert MandatoryLines(t)[..i + 1] == MandatoryLines(t)[..i] + [MandatoryLine(t, t.mandatory[i])];
      lines := lines + [MandatoryLine(t, t.mandatory[i])];
      i := i + 1;
    }
    assert MandatoryLines(t)[..i] == MandatoryLines(t);
    text := Join(lines, "\n");
  }

  /** Each listing is empty exactly when there is nothing to list: every section block
      and every mandatory line is itself non-empty. */
  lemma ListingsEmptyIffNothingListed(t: Template, sections: seq<Section>)
    ensures SectionsText(sections) == [] <==> sections == []
    ensures MandatoryText(t) == [] <==> t.mandatory == []
  {
    JoinOfNonEmpty(SectionBlocks(sections), "\n");
    JoinOfNonEmpty(MandatoryLines(t), "\n");
  }

  function Prompt(texts: Agents.PromptTexts, projectName: string, sectionsText: string, mandatoryText: string): string {
    PromptOpening + projectName + PromptSections + sectionsText + PromptMandatory + mandatoryText + texts.closing
  }

  function CheckRequest(texts: Agents.PromptTexts, t: Template, projectName: string, sections: seq<Section>): Request {
    Request(Prompt(texts, projectName, SectionsText(sections), MandatoryText(t)), Some(texts.system), 0.2, 2048)
  }

  // ---------------------------------------------------------------- the report

  datatype Report = Report(
    complianceScore: Json, structuralScore: real, missing: seq<string>, incomplete: Json,
    warnings: Json, recommendations: Json, sectionScores: Json, provider: string)

  /** The merge at the end of `_process`. */
  function Merge(structural: Structural, answer: Object, provider: string): (r: Report)
    ensures r.structuralScore == structural.score && r.missing == structural.missing && r.provider == provider
    ensures "compliance_score" in answer ==> r.complianceScore == answer["compliance_score"]
    ensures "compliance_score" !in answer ==> r.complianceScore == JNum(structural.score)
    ensures "incomplete_sections" in answer ==> r.incomplete == answer["incomplete_sections"]
    ensures "incomplete_sections" !in answer ==> r.incomplete == JArr([])
    ensures "warnings" in answer ==> r.warnings == answer["warnings"]
    ensures "warnings" !in answer ==> r.warnings == JArr([])
    ensures "recommendations" in answer ==> r.recommendations == answer["recommendations"]
    ensures "recommendations" !in answer ==> r.recommendations == JArr([])
    ensures "section_scores" in answer ==> r.sectionScores == answer["section_scores"]
    ensures "section_scores" !in answer ==> r.sectionScores == JObj(map[])
  {
    Report(Get(answer, "compliance_score", JNum(structural.score)), structural.score, structural.missing,
           Get(answer, "incomplete_sections", JArr([])), Get(answer, "warnings", JArr([])),
           Get(answer, "recommendations", JArr([])), Get(answer, "section_scores", JObj(map[])), provider)
  }

  /** An answer that did not decode counts as `{}`: the structural score stands in and
      every model-provided field takes its empty default. */
  lemma UndecodedAnswerFallsBack(structural: Structural, provider: string)
    ensures Merge(structural, map[], provider)
         == Report(JNum(structural.score), structural.score, structural.missing, JArr([]), JArr([]), JArr([]),
                   JObj(map[]), provider)
  {
  }

  /** The model's answer, whatever it says, never alters the structural score or the
      missing ids; it decides only the fields it provides. */
  lemma ModelCannotOverrideStructure(structural: Structural, a: Object, b: Object, provider: string)
    ensures Merge(structural, a, provider).structuralScore == Merge(structural, b, provider).structuralScore
    ensures Merge(structural, a, provider).missing == Merge(structural, b, provider).missing == structural.missing
    ensures (forall key :: key in a <==> key in b) && (forall key :: key in a ==> a[key] == b[key])
            ==> Merge(structural, a, provider) == Merge(structural, b, provider)
  {
    if (forall key :: key in a <==> key in b) && (forall key :: key in a ==> a[key] == b[key]) {
      assert a == b;
    }
  }

  /** What the answer text decodes to, with a decode failure caught as `{}`. */
  function AnswerPayload(responseText: string, decode: Decoder): Json {
    match DecodeResponse(responseText, decode)
    case Some(j) => j
    case None => JObj(map[])
  }

  /** `ComplianceCheckerAgent._process`. The routed call may raise, and a payload that
      decodes to something other than an object raises at `.get`. */
  function Check(texts: Agents.PromptTexts, t: Template, projectName: string, sections: seq<Section>,
                 backends: Backends, decode: Decoder): (r: Result<Report, Error>)
    ensures var answer := backends.claude(CheckRequest(texts, t, projectName, sections));
            && (answer.Err? ==> r == Err(answer.error))
            && (answer.Ok? ==>
                  var payload := AnswerPayload(answer.value.text, decode);
                  && (payload.JObj? ==> r == Ok(Merge(StructuralCheck(t.mandatory, sections), payload.fields, answer.value.provider)))
                  && (!payload.JObj? ==> r == Err(NoGetError(payload))))
  {
    assert TaskType in ComplianceTasks;
    var structural := StructuralCheck(t.mandatory, sections);
    var routed := Route(TaskType, CheckRequest(texts, t, projectName, sections), backends.mamay, backends.claude);
    match routed.outcome
    case Err(e) => Err(e)
    case Ok(response) =>
      var answer := AnswerPayload(response.text, decode);
      if answer.JObj? then Ok(Merge(structural, answer.fields, response.provider))
      else Err(NoGetError(answer))
  }

  /** The check is answered by Claude alone, never falls back, and reports the
      structural result however the answer turns out. */
  lemma CheckAskedOfClaudeOnly(texts: Agents.PromptTexts, t: Template, projectName: string, sections: seq<Section>,
                               backends: Backends, decode: Decoder)
    ensures var request := CheckRequest(texts, t, projectName, sections);
            var r := Check(texts, t, projectName, sections, backends, decode);
            && Route(TaskType, request, backends.mamay, backends.claude).calls == [Call(Claude, request)]
            && (backends.claude(request).Err? ==> r == Err(backends.claude(request).error))
            && (r.Ok? ==> r.value.structuralScore == StructuralCheck(t.mandatory, sections).score
                          && r.value.missing == StructuralCheck(t.mandatory, sections).missing)
  {
    assert TaskType in ComplianceTasks;
  }
}
