/** Retrieval of reference context: the semantic search over the vector index and the
    per-section fallback (src/rag/retriever.py), and the agent that gathers one context
    per section (src/agents/rag_retriever.py). Embedding the query and the nearest-
    neighbour search are one abstract `VectorIndex`. */
module Retrieval {
  import opened Wrappers
  import opened Text
  import opened Errors
  import opened Json
  import Template
  import opened Runs

  /** A point the index returns: its similarity and its payload. */
  datatype Hit = Hit(score: real, payload: map<string, string>)

  datatype SearchResult = SearchResult(
    text: string, score: real, sectionId: Option<string>, sectionTitle: Option<string>, sourceFile: Option<string>)

  /** Embeds the query and returns the nearest chunks, best first, at most `limit` of
      them, restricted to chunks tagged with the given section id when there is one. */
  type VectorIndex = (string, Option<string>, nat) -> Result<seq<Hit>, Error>

  const Separator: string := "\n\n---\n\n"

  function PayloadValue(h: Hit, key: string): Option<string> {
    if key in h.payload then Some(h.payload[key]) else None
  }

  /** One hit as `search` reports it. */
  function Project(h: Hit): SearchResult {
    SearchResult(PayloadValue(h, "text").GetOr(""), h.score,
                 PayloadValue(h, "section_id"), PayloadValue(h, "section_title"), PayloadValue(h, "source_file"))
  }

  /** The index filter `search` builds: only for a non-empty section filter. */
  function IndexFilter(sectionFilter: Option<string>): (r: Option<string>)
    ensures r.Some? <==> sectionFilter.Some? && sectionFilter.value != []
    ensures r.Some? ==> r == sectionFilter
  {
    if sectionFilter.Some? && sectionFilter.value != [] then sectionFilter else None
  }

  /** What `search` returns for a successful index query. */
  function Projected(hits: seq<Hit>): (r: seq<SearchResult>)
    ensures |r| == |hits|
    ensures forall i :: 0 <= i < |r| ==> r[i] == Project(hits[i])
  {
    seq(|hits|, i requires 0 <= i < |hits| => Project(hits[i]))
  }

  function SearchSpec(query: string, topK: nat, sectionFilter: Option<string>, index: VectorIndex)
    : Result<seq<SearchResult>, Error>
  {
    match index(query, IndexFilter(sectionFilter), topK)
    case Ok(hits) => Ok(Projected(hits))
    case Err(e) => Err(e)
  }

  /** `RAGRetriever.search`: one index query with `top_k` as its limit, every hit
      mapped to a result in the order the index ranked it. */
  method Search(query: string, topK: nat, sectionFilter: Option<string>, index: VectorIndex)
    returns (r: Result<seq<SearchResult>, Error>)
    ensures r == SearchSpec(query, topK, sectionFilter, index)
    ensures r.Ok? ==> index(query, IndexFilter(sectionFilter), topK).Ok?
                      && |r.value| == |index(query, IndexFilter(sectionFilter), topK).value|
    ensures r.Ok? ==> forall i :: 0 <= i < |r.value| ==>
                        r.value[i].text == PayloadValue(index(query, IndexFilter(sectionFilter), topK).value[i], "text").GetOr("")
  {
    var found := index(query, IndexFilter(sectionFilter), topK);
    if found.Err? {
      return Err(found.error);
    }
    var hits := found.value;
    var results: seq<SearchResult> := [];
    var i := 0;
    while i < |hits|
      invariant 0 <= i <= |hits|
      invariant results == Projected(hits[..i])
    {
      results := results + [Project(hits[i])];
      i := i + 1;
    }
    assert hits[..i] == hits;
    return Ok(results);
  }

  /** The query `search_for_section` builds. */
  function SectionQuery(sectionId: string, description: string): string {
    "Секція " + sectionId + " технічного завдання: " + description
  }

  function Texts(results: seq<SearchResult>): (r: seq<string>)
    ensures |r| == |results|
    ensures forall i :: 0 <= i < |r| ==> r[i] == results[i].text
  {
    seq(|results|, i requires 0 <= i < |results| => results[i].text)
  }

  /** The context for one section and the filters of the searches made for it. */
  datatype SectionContext = SectionContext(outcome: Result<string, Error>, filters: seq<Option<string>>)

  /** `RAGRetriever.search_for_section`: a filtered search, one unfiltered retry when it
      found nothing, and the texts joined with the separator. */
  function SearchForSection(sectionId: string, description: string, topK: nat, index: VectorIndex)
    : (r: SectionContext)
    ensures 1 <= |r.filters| <= 2
    ensures r.filters[0] == Some(sectionId)
    ensures |r.filters| == 2 <==>
              SearchSpec(SectionQuery(sectionId, description), topK, Some(sectionId), index) == Ok([])
    ensures |r.filters| == 2 ==> r.filters[1] == None
  {
    var query := SectionQuery(sectionId, description);
    var filtered := SearchSpec(query, topK, Some(sectionId), index);
    if filtered.Err? then SectionContext(Err(filtered.error), [Some(sectionId)])
    else if filtered.value != [] then SectionContext(Ok(Join(Texts(filtered.value), Separator)), [Some(sectionId)])
    else
      var unfiltered := SearchSpec(query, topK, None, index);
      var outcome := if unfiltered.Err? then Err(unfiltered.error) else Ok(Join(Texts(unfiltered.value), Separator));
      SectionContext(outcome, [Some(sectionId), None])
  }

  /** A joined context is empty only if there was at most one text, and that one empty. */
  lemma {:induction false} JoinEmpty(parts: seq<string>, sep: string)
    requires sep != []
    ensures Join(parts, sep) == [] <==> parts == [] || (|parts| == 1 && parts[0] == [])
  {
    if |parts| > 1 {
      assert |Join(parts, sep)| >= |sep|;
    }
  }

  /** The context is empty when both searches find nothing; otherwise it is empty only
      when the single result found carries no text. Both searches run only if the
      filtered one was empty, and both use the same query and `top_k`. */
  lemma ContextEmptiness(sectionId: string, description: string, topK: nat, index: VectorIndex)
    ensures var query := SectionQuery(sectionId, description);
            var r := SearchForSection(sectionId, description, topK, index);
            && ((SearchSpec(query, topK, Some(sectionId), index) == Ok([])
                 && SearchSpec(query, topK, None, index) == Ok([])) ==> r.outcome == Ok([]))
            && (r.outcome == Ok([]) ==>
                  || (SearchSpec(query, topK, Some(sectionId), index) == Ok([]) && SearchSpec(query, topK, None, index) == Ok([]))
                  || exists h: SearchResult :: (SearchSpec(query, topK, Some(sectionId), index) == Ok([h])
                                  || SearchSpec(query, topK, None, index) == Ok([h])) && h.text == [])
  {
    var query := SectionQuery(sectionId, description);
    var filtered := SearchSpec(query, topK, Some(sectionId), index);
    var unfiltered := SearchSpec(query, topK, None, index);
    var r := SearchForSection(sectionId, description, topK, index);
    if filtered.Ok? && filtered.value != [] {
      JoinEmpty(Texts(filtered.value), Separator);
      if r.outcome == Ok([]) {
        assert |filtered.value| == |Texts(filtered.value)| == 1;
        assert filtered.value == [filtered.value[0]];
      }
    } else if filtered.Ok? && unfiltered.Ok? {
      JoinEmpty(Texts(unfiltered.value), Separator);
      if r.outcome == Ok([]) && unfiltered.value != [] {
        assert |unfiltered.value| == |Texts(unfiltered.value)| == 1;
        assert unfiltered.value == [unfiltered.value[0]];
      }
    }
  }

  // ---------------------------------------------------------------- the agent

  const TopK: nat := 3

  /** `RAGRetrieverAgent._build_search_query`: the description, then the summary if it
      is non-empty, then at most three functional requirements joined by "; ". */
  function SearchQuery(description: string, requirements: Object): string {
    var parts := [description]
      + (match NonEmptyText(requirements, "summary") case Some(s) => [s] case None => [])
      + (match NonEmptyList(requirements, "functional_requirements")
         case Some(l) => [Join(Take3(l), "; ")]
         case None => []);
    Join(parts, " ")
  }

  function Take3(l: seq<string>): (r: seq<string>)
    ensures |r| <= 3 && r <= l
  {
    if |l| <= 3 then l else l[..3]
  }

  /** The query starts with the description, and it depends on the requirements only
      through the summary and the first three functional requirements. */
  lemma SearchQueryDependsOnFirstThree(description: string, a: Object, b: Object)
    requires NonEmptyText(a, "summary") == NonEmptyText(b, "summary")
    requires NonEmptyList(a, "functional_requirements").Some? == NonEmptyList(b, "functional_requirements").Some?
    requires NonEmptyList(a, "functional_requirements").Some? ==>
               Take3(NonEmptyList(a, "functional_requirements").value) == Take3(NonEmptyList(b, "functional_requirements").value)
    ensures SearchQuery(description, a) == SearchQuery(description, b)
    ensures description <= SearchQuery(description, a)
  {
    var q := SearchQuery(description, a);
    var parts := [description]
      + (match NonEmptyText(a, "summary") case Some(s) => [s] case None => [])
      + (match NonEmptyList(a, "functional_requirements")
         case Some(l) => [Join(Take3(l), "; ")]
         case None => []);
    assert parts[0] == description;
    if |parts| > 1 {
      assert q == description + " " + Join(parts[1..], " ");
    }
  }

  /** Retrieving the context of one section, as the agent's loop does. */
  function ContextStep(query: string, index: VectorIndex): string -> Result<string, Error> {
    id => SearchForSection(id, query, TopK, index).outcome
  }

  /** What `RAGRetrieverAgent._process` returns as its contexts: one shared query, one
      context per requested section (all ten standard sections when none are named);
      the first failed search raises. */
  function Contexts(description: string, requirements: Json, sections: Option<seq<string>>, index: VectorIndex)
    : Result<map<string, string>, Error>
  {
    if !requirements.JObj? then Err(NoGetError(requirements))
    else FillAll(sections.GetOr(Template.StandardIds()), ContextStep(SearchQuery(description, requirements.fields), index))
  }

  /** The retrieval succeeds exactly when the requirements are an object and the search
      for every requested section succeeds; requirements that are not an object raise
      the `.get` error. */
  lemma ContextsOk(description: string, requirements: Json, sections: Option<seq<string>>, index: VectorIndex)
    ensures var r := Contexts(description, requirements, sections, index);
            && (!requirements.JObj? ==> r == Err(NoGetError(requirements)))
            && (requirements.JObj? ==>
                  var ids := sections.GetOr(Template.StandardIds());
                  var step := ContextStep(SearchQuery(description, requirements.fields), index);
                  (r.Ok? <==> forall i :: 0 <= i < |ids| ==> step(ids[i]).Ok?))
  {
    if requirements.JObj? {
      FillAllOk(sections.GetOr(Template.StandardIds()), ContextStep(SearchQuery(description, requirements.fields), index));
    }
  }

  /** A successful retrieval gives every requested section its search result as context,
      and no other section one. */
  lemma ContextsContents(description: string, requirements: Object, sections: Option<seq<string>>, index: VectorIndex)
    requires Contexts(description, JObj(requirements), sections, index).Ok?
    ensures var r := Contexts(description, JObj(requirements), sections, index).value;
            var step := ContextStep(SearchQuery(description, requirements), index);
            && r.Keys == KeySet(sections.GetOr(Template.StandardIds()))
            && forall id :: id in r ==> step(id) == Ok(r[id])
  {
    FillAllContents(sections.GetOr(Template.StandardIds()), ContextStep(SearchQuery(description, requirements), index));
  }

  /** A failed retrieval over an object reports the first section whose search failed. */
  lemma ContextsFirstError(description: string, requirements: Object, sections: Option<seq<string>>, index: VectorIndex)
    requires Contexts(description, JObj(requirements), sections, index).Err?
    ensures var ids := sections.GetOr(Template.StandardIds());
            var step := ContextStep(SearchQuery(description, requirements), index);
            exists n :: && 0 <= n < |ids|
                        && (forall j :: 0 <= j < n ==> step(ids[j]).Ok?)
                        && step(ids[n]) == Err(Contexts(description, JObj(requirements), sections, index).error)
  {
    FillAllFirstError(sections.GetOr(Template.StandardIds()), ContextStep(SearchQuery(description, requirements), index));
  }

  /** `RAGRetrieverAgent._process`, as the loop that fills the contexts dict. */
  method Retrieve(description: string, requirements: Json, sections: Option<seq<string>>, index: VectorIndex)
    returns (r: Result<map<string, string>, Error>)
    ensures r == Contexts(description, requirements, sections, index)
  {
    if !requirements.JObj? {
      return Err(NoGetError(requirements));
    }
    var ids := sections.GetOr(Template.StandardIds());
    var query := SearchQuery(description, requirements.fields);
    r := FillInOrder(ids, ContextStep(query, index));
  }
}
