/** The document template of Cabinet of Ministers Resolution No. 205 as the pipeline
    consumes it: the canonical section ids in numeric order, their titles and
    subsection stubs, and the mandatory subset. The template's contents are defined
    outside the modelled code, so they are a parameter of every operation. */
module Template {
  import opened Text

  datatype SubsectionInfo = SubsectionInfo(id: string, title: string, description: string)

  datatype Template = Template(
    /** `sorted(KMU_205_STRUCTURE.keys(), key=int)` */
    ids: seq<string>,
    /** `KMU_205_STRUCTURE[id]["title"]`, for the ids that carry one */
    titles: map<string, string>,
    /** `get_all_subsections(id)`, for the ids that have subsections */
    subsections: map<string, seq<SubsectionInfo>>,
    /** `get_mandatory_sections()` */
    mandatory: seq<string>)

  /** Every id is a numeral and the ids are in strictly increasing numeric order. */
  predicate NumericOrder(ids: seq<string>) {
    && (forall i :: 0 <= i < |ids| ==> ids[i] != [] && AllDigits(ids[i]))
    && (forall i, j :: 0 <= i < j < |ids| ==> DecimalValue(ids[i]) < DecimalValue(ids[j]))
  }

  /** What `sorted(..., key=int)` over the template's keys guarantees. */
  predicate Valid(t: Template) {
    NumericOrder(t.ids)
  }

  function SubsectionsOf(t: Template, id: string): seq<SubsectionInfo> {
    if id in t.subsections then t.subsections[id] else []
  }

  /** `[str(i) for i in range(1, 11)]`: the ten section ids the orchestrator and the
      retrieval agent enumerate on their own. */
  function StandardIds(): (r: seq<string>)
    ensures |r| == 10
  {
    seq(10, i requires 0 <= i < 10 => Str(i + 1))
  }

  /** The ten standard ids are numerals in increasing numeric order. */
  lemma StandardIdsInOrder()
    ensures NumericOrder(StandardIds())
    ensures forall i :: 0 <= i < 10 ==> DecimalValue(StandardIds()[i]) == i + 1
  {
    var ids := StandardIds();
    forall i | 0 <= i < 10 ensures ids[i] != [] && AllDigits(ids[i]) && DecimalValue(ids[i]) == i + 1 {
      StrRoundTrip(i + 1);
    }
  }
}
