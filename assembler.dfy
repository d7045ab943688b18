/** The document assembler (src/agents/document_assembler.py): puts the generated
    sections in template order, strips their internal fields and wraps them with the
    compliance result and the project's metadata. */
module Assembler {
  import opened Wrappers
  import opened Text
  import opened Errors
  import opened Json
  import opened Template
  import opened Sections
  import Compliance

  const TemplateType: string := "kmu_205"

  datatype Metadata = Metadata(generatedAt: string, totalSections: nat, requirementsSummary: Json, systemType: Json)

  /** The assembled document. The three compliance detail lists are kept apart from
      the score as the source nests them under `compliance_details`. */
  datatype Document = Document(
    id: string, projectName: string, templateType: string, sections: seq<Section>,
    complianceScore: Json, missing: seq<string>, warnings: Json, recommendations: Json,
    metadata: Metadata)

  // ---------------------------------------------------------------- ordering

  /** The cleaned copy of a section: id, title, content and subsections only. */
  function Clean(s: Section): (r: Section)
    ensures r.provenance.None?
    ensures r.id == s.id && r.title == s.title && r.content == s.content && r.subsections == s.subsections
  {
    Section(s.id, s.title, s.content, s.subsections, None)
  }

  /** `{s.get("id"): s for s in sections}`: a later section replaces an earlier one with
      the same id. */
  function Index(sections: seq<Section>): (m: map<string, Section>)
    ensures m.Keys == Compliance.PresentIds(sections)
    ensures forall x :: x in m ==> m[x].id == x
  {
    if sections == [] then map[]
    else
      var init := sections[..|sections| - 1];
      var last := sections[|sections| - 1];
      assert Compliance.PresentIds(sections) == Compliance.PresentIds(init) + {last.id} by {
        assert forall i :: 0 <= i < |init| ==> init[i] == sections[i];
      }
      Index(init)[last.id := last]
  }

  /** The index keeps, for every id, the last section carrying it. */
  lemma {:induction false} LastOccurrenceWins(sections: seq<Section>, j: nat)
    requires j < |sections|
    requires forall k :: j < k < |sections| ==> sections[k].id != sections[j].id
    ensures sections[j].id in Index(sections) && Index(sections)[sections[j].id] == sections[j]
  {
    var init := sections[..|sections| - 1];
    if j < |init| {
      assert init[j] == sections[j];
      assert forall k :: j < k < |init| ==> init[k] == sections[k];
      LastOccurrenceWins(init, j);
    }
  }

  /** The template ids that have a section, in template order. */
  function Kept(ids: seq<string>, present: set<string>): (r: seq<string>)
    ensures forall x :: x in r <==> x in ids && x in present
    decreases |ids|
  {
    if ids == [] then []
    else
      var init := ids[..|ids| - 1];
      var last := ids[|ids| - 1];
      assert forall x :: x in ids <==> x in init || x == last;
      Kept(init, present) + (if last in present then [last] else [])
  }

  /** The ordered, cleaned sections: one per kept template id. */
  function Ordered(ids: seq<string>, index: map<string, Section>): seq<Section>
    decreases |ids|
  {
    if ids == [] then []
    else
      var last := ids[|ids| - 1];
      Ordered(ids[..|ids| - 1], index) + (if last in index then [Clean(index[last])] else [])
  }

  function IdsOf(sections: seq<Section>): (r: seq<string>)
    ensures |r| == |sections|
    ensures forall i :: 0 <= i < |r| ==> r[i] == sections[i].id
  {
    seq(|sections|, i requires 0 <= i < |sections| => sections[i].id)
  }

  /** `DocumentAssemblerAgent._order_sections`, as a loop that indexes the sections and
      a loop over the template's ids. */
  method OrderSections(t: Template, sections: seq<Section>) returns (ordered: seq<Section>)
    ensures ordered == Ordered(t.ids, Index(sections))
  {
    var index: map<string, Section> := map[];
    var i := 0;
    while i < |sections|
      invariant 0 <= i <= |sections|
      invariant index == Index(sections[..i])
    {
      assert sections[..i + 1][..i] == sections[..i];
      index := index[sections[i].id := sections[i]];
      i := i + 1;
    }
    assert sections[..i] == sections;
    ordered := [];
    var j := 0;
    while j < |t.ids|
      invariant 0 <= j <= |t.ids|
      invariant ordered == Ordered(t.ids[..j], index)
    {
      assert t.ids[..j + 1][..j] == t.ids[..j];
      var id := t.ids[j];
      if id in index {
        ordered := ordered + [Clean(index[id])];
      }
      j := j + 1;
    }
    assert t.ids[..j] == t.ids;
  }

  lemma IdsOfConcat(a: seq<Section>, b: seq<Section>)
    ensures IdsOf(a + b) == IdsOf(a) + IdsOf(b)
  {
  }

  /** The ordered sections are exactly the template ids that have a section, in template
      order, and each is the cleaned last section carrying its id. Sections whose id is
      not in the template are dropped. */
  lemma {:induction false} OrderedFollowsTemplate(ids: seq<string>, sections: seq<Section>)
    ensures var r := Ordered(ids, Index(sections));
            && IdsOf(r) == Kept(ids, Compliance.PresentIds(sections))
            && forall i :: 0 <= i < |r| ==> r[i].id in Index(sections) && r[i] == Clean(Index(sections)[r[i].id])
    decreases |ids|
  {
    if ids != [] {
      var index := Index(sections);
      var last := ids[|ids| - 1];
      OrderedFollowsTemplate(ids[..|ids| - 1], sections);
      var front := Ordered(ids[..|ids| - 1], index);
      var tail := if last in index then [Clean(index[last])] else [];
      IdsOfConcat(front, tail);
      if last in index {
        assert IdsOf(tail) == [last];
      } else {
        assert IdsOf(tail) == [];
      }
    }
  }

  /** Two indexes that agree on the cleaned section of every template id give the same
      ordered sections. */
  lemma {:induction false} OrderedAgrees(ids: seq<string>, m1: map<string, Section>, m2: map<string, Section>)
    requires forall x :: x in ids ==> (x in m1 <==> x in m2)
    requires forall x :: x in ids && x in m1 ==> Clean(m1[x]) == Clean(m2[x])
    ensures Ordered(ids, m1) == Ordered(ids, m2)
    decreases |ids|
  {
    if ids != [] {
      var init := ids[..|ids| - 1];
      assert forall x :: x in init ==> x in ids;
      OrderedAgrees(init, m1, m2);
      assert ids[|ids| - 1] in ids;
    }
  }

  /** Keeping some ids of a numerically ordered list keeps it numerically ordered, so the
      document never holds two sections with the same id nor an out-of-order one. */
  lemma {:induction false} KeptKeepsOrder(ids: seq<string>, present: set<string>)
    requires NumericOrder(ids)
    ensures NumericOrder(Kept(ids, present))
    decreases |ids|
  {
    if ids != [] {
      var init := ids[..|ids| - 1];
      var last := ids[|ids| - 1];
      assert NumericOrder(init) by {
        assert forall i :: 0 <= i < |init| ==> init[i] == ids[i];
      }
      KeptKeepsOrder(init, present);
      var front := Kept(init, present);
      if last in present {
        forall x | x in front ensures DecimalValue(x) < DecimalValue(last) {
          var k :| 0 <= k < |init| && init[k] == x;
          assert ids[k] == x;
        }
        NumericOrderSnoc(front, last);
      }
    }
  }

  lemma NumericOrderSnoc(ids: seq<string>, last: string)
    requires NumericOrder(ids) && last != [] && AllDigits(last)
    requires forall x :: x in ids ==> AllDigits(x) && DecimalValue(x) < DecimalValue(last)
    ensures NumericOrder(ids + [last])
  {
    var r := ids + [last];
    forall i, j | 0 <= i < j < |r| ensures DecimalValue(r[i]) < DecimalValue(r[j]) {
      if j == |ids| {
        assert r[i] in ids;
      } else {
        assert r[i] == ids[i] && r[j] == ids[j];
      }
    }
  }

  /** Numerically ordered ids are pairwise distinct. */
  lemma NumericOrderDistinct(ids: seq<string>)
    requires NumericOrder(ids)
    ensures forall i, j :: 0 <= i < j < |ids| ==> ids[i] != ids[j]
  {
    forall i, j | 0 <= i < j < |ids| ensures ids[i] != ids[j] {
      assert DecimalValue(ids[i]) < DecimalValue(ids[j]);
    }
  }

  /** Ordering twice changes nothing: the ordered sections are already clean, unique and
      in template order. */
  lemma OrderingIdempotent(t: Template, sections: seq<Section>)
    requires Valid(t)
    ensures Ordered(t.ids, Index(Ordered(t.ids, Index(sections)))) == Ordered(t.ids, Index(sections))
  {
    var index := Index(sections);
    var once := Ordered(t.ids, index);
    var kept := Kept(t.ids, Compliance.PresentIds(sections));
    OrderedFollowsTemplate(t.ids, sections);
    KeptKeepsOrder(t.ids, Compliance.PresentIds(sections));
    NumericOrderDistinct(kept);
    forall x | x in t.ids
      ensures x in Index(once) <==> x in index
      ensures x in index ==> Clean(Index(once)[x]) == Clean(index[x])
    {
      if x in index {
        assert x in kept;
        var i :| 0 <= i < |kept| && kept[i] == x;
        assert IdsOf(once)[i] == x;
        forall k | i < k < |once| ensures once[k].id != once[i].id {
          assert IdsOf(once)[k] == kept[k];
        }
        LastOccurrenceWins(once, i);
      }
      if x in Index(once) {
        var i :| 0 <= i < |once| && once[i].id == x;
        assert IdsOf(once)[i] == x;
        assert x in kept;
      }
    }
    OrderedAgrees(t.ids, Index(once), index);
  }

  // ---------------------------------------------------------------- the document

  /** `requirements.get(key, "")`. */
  function RequirementsField(requirements: Object, key: string): Json {
    Get(requirements, key, JStr(""))
  }

  /** The document `DocumentAssemblerAgent._process` builds. */
  function Assembled(t: Template, projectId: string, projectName: string, sections: seq<Section>,
                     compliance: Option<Compliance.Report>, requirements: Json, now: string): Result<Document, Error>
  {
    if !requirements.JObj? then Err(NoGetError(requirements))
    else
      var ordered := Ordered(t.ids, Index(sections));
      var metadata := Metadata(now, |ordered|, RequirementsField(requirements.fields, "summary"),
                               RequirementsField(requirements.fields, "system_type"));
      match compliance
      case Some(c) =>
        Ok(Document(projectId, projectName, TemplateType, ordered, c.complianceScore, c.missing, c.warnings,
                    c.recommendations, metadata))
      case None =>
        Ok(Document(projectId, projectName, TemplateType, ordered, JNum(0.0), [], JArr([]), JArr([]), metadata))
  }

  /** `DocumentAssemblerAgent._process`. A missing compliance result (`None`) leaves the
      score at 0.0 and the detail lists empty; requirements that are not an object make
      the `.get` raise. `now` is the clock's ISO timestamp. */
  method Assemble(t: Template, projectId: string, projectName: string, sections: seq<Section>,
                  compliance: Option<Compliance.Report>, requirements: Json, now: string)
    returns (r: Result<Document, Error>)
    ensures r == Assembled(t, projectId, projectName, sections, compliance, requirements, now)
    ensures requirements.JObj? <==> r.Ok?
    ensures !requirements.JObj? ==> r == Err(NoGetError(requirements))
    ensures r.Ok? ==>
              var d := r.value;
              && d.id == projectId && d.projectName == projectName && d.templateType == TemplateType
              && d.sections == Ordered(t.ids, Index(sections))
              && d.metadata == Metadata(now, |d.sections|, RequirementsField(requirements.fields, "summary"),
                                        RequirementsField(requirements.fields, "system_type"))
              && (compliance.Some? ==>
                    && d.complianceScore == compliance.value.complianceScore
                    && d.missing == compliance.value.missing
                    && d.warnings == compliance.value.warnings
                    && d.recommendations == compliance.value.recommendations)
              && (compliance.None? ==>
                    d.complianceScore == JNum(0.0) && d.missing == [] && d.warnings == JArr([]) && d.recommendations == JArr([]))
  {
    var ordered := OrderSections(t, sections);
    var score, missing, warnings, recommendations;
    match compliance {
      case Some(c) =>
        score, missing, warnings, recommendations := c.complianceScore, c.missing, c.warnings, c.recommendations;
      case None =>
        score, missing, warnings, recommendations := JNum(0.0), [], JArr([]), JArr([]);
    }
    if !requirements.JObj? {
      return Err(NoGetError(requirements));
    }
    var metadata := Metadata(now, |ordered|, RequirementsField(requirements.fields, "summary"),
                             RequirementsField(requirements.fields, "system_type"));
    r := Ok(Document(projectId, projectName, TemplateType, ordered, score, missing, warnings, recommendations, metadata));
  }
}
