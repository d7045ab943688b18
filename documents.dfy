/** The document store (src/services/document_service.py): generated documents in the
    order they were saved, which is the order `created_at` gives them. Every successful
    generation run saves a new document, so a project may own several. */
module Documents {
  import opened Wrappers
  import opened Errors
  import opened Json
  import opened Sections

  const Completed: string := "completed"

  /** What SQLAlchemy's `scalar_one_or_none` raises when the query has several rows. */
  const MultipleRows: string := "Multiple rows were found when one or none was required"

  /** A row of the `documents` table. */
  datatype StoredDocument = StoredDocument(
    id: string, projectId: string, sections: seq<Section>, complianceScore: Json, metadata: Json, status: string)

  function NoDocumentMessage(projectId: string): string {
    "Документ для проєкту " + projectId + " не знайдено"
  }

  function NoSectionMessage(sectionId: string): string {
    "Секцію " + sectionId + " не знайдено в документі"
  }

  // ---------------------------------------------------------------- lookup by project

  /** The documents of a project, oldest first. */
  function OfProject(docs: seq<StoredDocument>, projectId: string): (r: seq<StoredDocument>)
    ensures forall d :: d in r <==> d in docs && d.projectId == projectId
    decreases |docs|
  {
    if docs == [] then []
    else
      var last := docs[|docs| - 1];
      assert forall d :: d in docs <==> d in docs[..|docs| - 1] || d == last;
      OfProject(docs[..|docs| - 1], projectId) + (if last.projectId == projectId then [last] else [])
  }

  /** `get_by_project_id` as written: the query is ordered newest first, but
      `scalar_one_or_none` raises as soon as it holds more than one row. */
  function LookupAsWritten(docs: seq<StoredDocument>, projectId: string): Result<Option<StoredDocument>, Error> {
    var found := OfProject(docs, projectId);
    if found == [] then Ok(None)
    else if |found| == 1 then Ok(Some(found[0]))
    else Err(Other(MultipleRows))
  }

  /** The position of the project's newest document, the first row of the query. */
  function Newest(docs: seq<StoredDocument>, projectId: string): (r: Option<nat>)
    ensures r.Some? ==> r.value < |docs| && docs[r.value].projectId == projectId
    ensures r.Some? ==> forall j :: r.value < j < |docs| ==> docs[j].projectId != projectId
    ensures r.None? ==> forall j :: 0 <= j < |docs| ==> docs[j].projectId != projectId
    decreases |docs|
  {
    if docs == [] then None
    else if docs[|docs| - 1].projectId == projectId then Some(|docs| - 1)
    else Newest(docs[..|docs| - 1], projectId)
  }

  /** A project generated twice makes the lookup as written raise, where the newest of
      its documents was evidently wanted. */
  lemma {:induction false} SecondDocumentBreaksLookup(docs: seq<StoredDocument>, projectId: string, i: nat, j: nat)
    requires i < j < |docs| && docs[i].projectId == projectId && docs[j].projectId == projectId
    ensures LookupAsWritten(docs, projectId) == Err(Other(MultipleRows))
    ensures Newest(docs, projectId).Some? && Newest(docs, projectId).value >= j
  {
    OfProjectCount(docs, projectId, i, j);
  }

  lemma {:induction false} OfProjectCount(docs: seq<StoredDocument>, projectId: string, i: nat, j: nat)
    requires i < j < |docs| && docs[i].projectId == projectId && docs[j].projectId == projectId
    ensures |OfProject(docs, projectId)| >= 2
    decreases |docs|
  {
    var init := docs[..|docs| - 1];
    if j < |docs| - 1 {
      assert init[i] == docs[i] && init[j] == docs[j];
      OfProjectCount(init, projectId, i, j);
    } else {
      assert init[i] == docs[i];
      assert docs[i] in OfProject(init, projectId);
    }
  }

  /** With at most one document per project the lookup as written and the newest-first
      lookup agree. */
  lemma {:induction false} LookupAgreesWhenSingle(docs: seq<StoredDocument>, projectId: string)
    requires forall i, j :: 0 <= i < j < |docs| && docs[i].projectId == projectId ==> docs[j].projectId != projectId
    ensures LookupAsWritten(docs, projectId)
         == Ok(match Newest(docs, projectId) case Some(k) => Some(docs[k]) case None => None)
    decreases |docs|
  {
    if docs != [] {
      var init := docs[..|docs| - 1];
      var last := docs[|docs| - 1];
      LookupAgreesWhenSingle(init, projectId);
      if last.projectId == projectId {
        assert forall d :: d in init ==> d.projectId != projectId by {
          forall d | d in init ensures d.projectId != projectId {
            var i :| 0 <= i < |init| && init[i] == d;
            assert docs[i] == d;
          }
        }
        assert OfProject(init, projectId) == [];
      }
    }
  }

  // ---------------------------------------------------------------- one section

  /** The first section with the given id. */
  function FirstWithId(sections: seq<Section>, sectionId: string): (r: Option<nat>)
    ensures r.Some? ==> r.value < |sections| && sections[r.value].id == sectionId
    ensures r.Some? ==> forall j :: 0 <= j < r.value ==> sections[j].id != sectionId
    ensures r.None? ==> forall j :: 0 <= j < |sections| ==> sections[j].id != sectionId
    decreases |sections|
  {
    if sections == [] then None
    else if sections[0].id == sectionId then Some(0)
    else match FirstWithId(sections[1..], sectionId)
      case Some(k) => Some(k + 1)
      case None => None
  }

  /** The scan of `update_section`: the position of the first section with the id. */
  method FindSection(sections: seq<Section>, sectionId: string) returns (found: Option<nat>)
    ensures found == FirstWithId(sections, sectionId)
  {
    var i := 0;
    while i < |sections|
      invariant 0 <= i <= |sections|
      invariant forall j :: 0 <= j < i ==> sections[j].id != sectionId
    {
      if sections[i].id == sectionId {
        return Some(i);
      }
      i := i + 1;
    }
    return None;
  }

  /** The content the document holds for a section id: that of the first section with it. */
  function ContentOf(sections: seq<Section>, sectionId: string): Option<string> {
    match FirstWithId(sections, sectionId)
    case Some(k) => Some(sections[k].content)
    case None => None
  }

  /** The sections with the content of the `k`th replaced. */
  function WithContent(sections: seq<Section>, k: nat, content: string): (r: seq<Section>)
    requires k < |sections|
  {
    sections[k := sections[k].(content := content)]
  }

  /** Replacing a section's content and reading it back gives the new content, and the
      first section with that id is still the same one. */
  lemma ReadBack(sections: seq<Section>, sectionId: string, content: string)
    requires FirstWithId(sections, sectionId).Some?
    ensures var k := FirstWithId(sections, sectionId).value;
            && FirstWithId(WithContent(sections, k, content), sectionId) == Some(k)
            && ContentOf(WithContent(sections, k, content), sectionId) == Some(content)
  {
    var k := FirstWithId(sections, sectionId).value;
    var r := WithContent(sections, k, content);
    assert forall j :: 0 <= j < |r| ==> r[j].id == sections[j].id;
  }

  /** Writing the same content twice is writing it once. */
  lemma ReplaceIdempotent(sections: seq<Section>, sectionId: string, content: string)
    requires FirstWithId(sections, sectionId).Some?
    ensures var k := FirstWithId(sections, sectionId).value;
            WithContent(WithContent(sections, k, content), k, content) == WithContent(sections, k, content)
  {
  }

  class DocumentStore {
    /** The saved documents, oldest first. */
    var documents: seq<StoredDocument>

    ghost predicate Valid()
      reads this
    {
      forall i, j :: 0 <= i < j < |documents| ==> documents[i].id != documents[j].id
    }

    constructor()
      ensures Valid() && documents == []
    {
      documents := [];
    }

    /** `DocumentService.create`: the document is saved as "completed", with `{}` when no
        metadata is given. */
    method Create(id: string, projectId: string, sections: seq<Section>, complianceScore: Json, metadata: Option<Json>)
      returns (d: StoredDocument)
      requires Valid() && forall i :: 0 <= i < |documents| ==> documents[i].id != id
      modifies this
      ensures Valid()
      ensures d == StoredDocument(id, projectId, sections, complianceScore, metadata.GetOr(JObj(map[])), Completed)
      ensures documents == old(documents) + [d]
    {
      d := StoredDocument(id, projectId, sections, complianceScore, metadata.GetOr(JObj(map[])), Completed);
      documents := documents + [d];
    }

    /** `DocumentService.get_by_project_id`, returning the newest of the project's
        documents (the query's first row). */
    function GetByProjectId(projectId: string): (r: Option<StoredDocument>)
      reads this
      ensures r.Some? ==> r.value in documents && r.value.projectId == projectId
      ensures r.None? <==> forall j :: 0 <= j < |documents| ==> documents[j].projectId != projectId
      ensures r.Some? ==> exists k :: && 0 <= k < |documents| && documents[k] == r.value
                                      && forall j :: k < j < |documents| ==> documents[j].projectId != projectId
    {
      match Newest(documents, projectId)
      case Some(k) =>
        assert documents[k] == documents[k];
        Some(documents[k])
      case None => None
    }

    /** `DocumentService.update_section`: the content of the first section with the id in
        the project's newest document is replaced; a project without a document or a
        document without such a section raises, and nothing changes. The document is
        found by the corrected lookup `GetByProjectId` states; the lookup as written
        raises once the project has two documents (`SecondDocumentBreaksLookup`). */
    method UpdateSection(projectId: string, sectionId: string, content: string) returns (r: Result<StoredDocument, Error>)
      requires Valid()
      modifies this
      ensures Valid()
      ensures Newest(old(documents), projectId).None? ==>
                r == Err(Enforence(NoDocumentMessage(projectId))) && documents == old(documents)
      ensures Newest(old(documents), projectId).Some? ==>
                var k := Newest(old(documents), projectId).value;
                var d := old(documents)[k];
                && (FirstWithId(d.sections, sectionId).None? ==>
                      r == Err(Enforence(NoSectionMessage(sectionId))) && documents == old(documents))
                && (FirstWithId(d.sections, sectionId).Some? ==>
                      && r == Ok(d.(sections := WithContent(d.sections, FirstWithId(d.sections, sectionId).value, content)))
                      && documents == old(documents)[k := r.value])
    {
      var newest := Newest(documents, projectId);
      if newest.None? {
        return Err(Enforence(NoDocumentMessage(projectId)));
      }
      var k := newest.value;
      var d := documents[k];
      var found := FindSection(d.sections, sectionId);
      if found.None? {
        return Err(Enforence(NoSectionMessage(sectionId)));
      }
      r := Ok(d.(sections := WithContent(d.sections, found.value, content)));
      documents := documents[k := r.value];
    }
  }

  /** An update leaves the document's section count, order, ids, titles and
      subsections as they were, and every other section's content too. */
  lemma UpdateKeepsEverythingElse(sections: seq<Section>, k: nat, content: string)
    requires k < |sections|
    ensures var r := WithContent(sections, k, content);
            && |r| == |sections|
            && (forall j :: 0 <= j < |r| ==>
                  && r[j].id == sections[j].id && r[j].title == sections[j].title
                  && r[j].subsections == sections[j].subsections && r[j].provenance == sections[j].provenance)
            && (forall j :: 0 <= j < |r| && j != k ==> r[j] == sections[j])
            && r[k].content == content
  {
  }
}
