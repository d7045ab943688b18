# Enforence document generation, modelled in Dafny

Enforence drafts Ukrainian technical specifications ("ТЗ") that follow the ten-section
structure of Cabinet of Ministers resolution No. 205 (КМУ №205). A project holds a name and
a description. Starting a generation creates a task record and marks the project
"generating". Then a pipeline of agents runs in the background:

- the requirements analyst turns the description into structured requirements (JSON);
- the RAG retriever finds reference fragments for each section in a vector index;
- the section generator writes the ten sections, either all at once or one after
  another;
- the compliance checker scores the sections against the mandatory ones;
- the document assembler orders them by the template and attaches metadata.

The finished document is stored and the project is marked "completed". Any error marks
both the generation task record and the project "failed". Every LLM call goes through a router. It
sends compliance work to Claude. It sends everything else to the local MamayLM model first
and falls back to Claude when that model raises an LLM error.

The model is split into modules that follow the program's structure:

- **Wrappers, Text, Json, Errors**: `Option`/`Result`, the Python string operations the
  agents use (`strip`, `join`, `find`, `rfind`, `str(int)`), JSON values, and the exception
  hierarchy with its messages.
- **Router** (`src/llm/router.py`): routing and fallback, with the LLM back ends as
  function parameters. A `Routed` value records which back ends were called with which
  request.
- **Fences, Template, Agents, Requirements, Sections, Compliance, Assembler, Retrieval**:
  each agent's `_process` as a pure function of its inputs and back ends. The loops
  become methods proved equal to those functions (`Runs` holds the two generic loops: a
  list that stops at the first error, and a dictionary filled in order).
- **Chunker** (`src/rag/chunker.py`): section splitting by the header regular expression,
  and the overlapping-window splitter with sentence snapping.
- **Projects, Documents**: the two database services, as classes whose fields are the
  table contents, with `modifies` clauses on the methods that write.
- **Generation** (`src/services/generation_service.py`): the orchestrator, as a class
  holding the generation task table and a ghost log of every `_update_task` call. Its methods are
  proved to make exactly the progress updates of the success plan, or a prefix of it
  followed by the failure update, and to leave the project and document tables as the
  source does.

The orchestrator calls the agents through an `Environment` value of functions;
`Generation.Standard` wires in the modelled agents. Decimal progress values are exact
reals.

## Model

| member | source | states |
|---|---|---|
| Text.Strip | src/rag/chunker.py:108 | the result is a slice of the input, starts and ends with a non-space, and is empty exactly when the input is all whitespace; whitespace is what `str.isspace` accepts, no-break and other Unicode spaces included |
| Text.StripIdempotent | src/rag/chunker.py:65 | stripping an already stripped chunk again changes nothing |
| Text.StrRoundTrip | src/services/generation_service.py:218 | `str(i)` is a non-empty digit string whose decimal value is `i` |
| Text.StrInjective | src/services/generation_service.py:218 | distinct section numbers give distinct section ids, and equal ids come from equal numbers |
| Text.FindFrom | src/agents/requirements_analyst.py:97-101 | the first occurrence at or after the start position, or none exists |
| Text.RFind | src/rag/chunker.py:138 | the last occurrence lying wholly inside `[start, end)`, or none exists there |
| Text.Before | src/agents/requirements_analyst.py:98-101 | `split(sep)[0]`: a prefix of the text without the separator, ended by the separator or by the end of the text |
| Text.JoinOfNonEmpty | src/agents/compliance_checker.py:163 | joining non-empty parts yields the empty string only for an empty list |
| Errors.LlmMessageNamesProvider | src/utils/exceptions.py:14-19 | an LLMError's message starts with the provider in brackets, and the provider can be read back from it |
| Errors.NotFoundMessageEmbedsId | src/utils/exceptions.py:43-48 | ProjectNotFoundError's message carries the project id, which can be read back from it |
| Json.Get | src/agents/compliance_checker.py:114-122 | `dict.get(key, default)`: the stored value when the key is present, else the default |
| Json.Strings | src/agents/section_generator.py:170-173 | a JSON list of strings read element by element, nothing added or dropped |
| Router.Route | src/llm/router.py:41-95 | one or two calls with the same request; compliance tasks call only Claude; others call MamayLM first and call Claude second exactly when MamayLM raised an LLM error; the answer is that of the last call |
| Router.FallbackAnswersAsClaude | src/llm/router.py:84-95 | after a MamayLM LLM error, the result is Claude's, tagged "claude" |
| Router.ComplianceAlwaysClaude | src/llm/router.py:66-73 | compliance-class tasks (compliance check, quality validation, structure review) get Claude's answer whatever MamayLM would do |
| Router.OtherErrorsPropagate | src/llm/router.py:77-84 | a MamayLM error that is not an LLM error propagates, and Claude is never called |
| Router.RouteTotalWhenClaudeUp | src/llm/router.py:41-95 | if Claude always answers and MamayLM fails only with LLM errors, routing always succeeds |
| Router.GetClient | src/llm/router.py:97-112 | succeeds exactly for "mamay" and "claude" and returns that client; any other name is an error naming the provider |
| Router.GetClientByName | src/llm/router.py:107-110 | looking up a client by its own name gives that client back |
| Router.HealthCheck | src/llm/router.py:114-119 | a map with exactly the keys "mamay" and "claude", each holding that back end's availability |
| Fences.FenceBodyIsBlock | src/agents/requirements_analyst.py:97-101 | the text taken from a fenced answer is everything after the opening fence up to the next closing fence, and contains no fence |
| Fences.UnfencedPayloadIsText | src/agents/requirements_analyst.py:95-102 | an answer without a fence is parsed as it stands |
| Template.StandardIds | src/agents/rag_retriever.py:50 | the ten default section ids |
| Template.StandardIdsInOrder | src/agents/rag_retriever.py:50 | the default ids are "1" to "10", in increasing numeric order |
| Agents.SystemPromptNamesAgent | src/agents/base.py:71-77 | the system prompt starts with the agent's role and ends with the Ukrainian-language and template rules |
| Agents.Execute | src/agents/base.py:30-57 | `execute` returns what `_process` returns and re-raises its error unchanged |
| Agents.DefaultProcess | src/agents/base.py:59-69 | the base `_process` fails with NotImplementedError naming the agent, which is not an Enforence error |
| Requirements.EntryLines | src/agents/requirements_analyst.py:75-79 | one "- key: value" line per additional-requirement entry, in order |
| Requirements.AdditionalText | src/agents/requirements_analyst.py:75-79 | the loop builds exactly the additional-requirements block |
| Requirements.EntryLinesSplit | src/agents/requirements_analyst.py:75-79 | the block's lines are the first entry's line followed by the lines of the rest |
| Requirements.Interpret | src/agents/requirements_analyst.py:95-111 | a decodable answer is returned as parsed; otherwise the fallback object holds exactly "summary" (the raw text) and "raw_response" true |
| Requirements.Analyze | src/agents/requirements_analyst.py:59-119 | MamayLM is asked first and Claude only after an LLM error; the answer that came back is interpreted as the requirements, and an error from the call that answered is raised as it is |
| Requirements.AnalysisRoutedAsGeneration | src/agents/requirements_analyst.py:81-92 | the analysis prompt goes to MamayLM first, and the analysis fails exactly when routing fails |
| Requirements.NotComplianceClass | src/agents/requirements_analyst.py:87-88 | requirement analysis is not a compliance task, so it is eligible for MamayLM |
| Runs.RunInOrder | src/agents/section_generator.py:148-160 | the loop's result is the stop-at-first-error run over the list |
| Runs.RunAllStep | src/agents/section_generator.py:148-160 | one more item extends the results or keeps the first error |
| Runs.RunAllOk | src/agents/section_generator.py:148-160 | the run succeeds if and only if every step succeeds, and then holds each step's result in order |
| Runs.RunAllErr | src/agents/section_generator.py:148-160 | a failed run reports the error of the first failing item, and all items before it succeeded |
| Runs.RunAllPrefixErr | src/agents/section_generator.py:148-160 | once a prefix has failed, the later items do not change the result |
| Runs.FillInOrder | src/agents/rag_retriever.py:57-63 | the loop's dictionary is the in-order fill of the keys |
| Runs.FillAllOk | src/agents/rag_retriever.py:57-63 | filling succeeds if and only if every key's step succeeds |
| Runs.FillAllContents | src/agents/rag_retriever.py:57-63 | a successful fill has exactly the given keys, each mapped to its step's result |
| Runs.FillAllFirstError | src/agents/rag_retriever.py:57-63 | a failed fill reports the first failing key's error, after only successes |
| Runs.FillAllPrefixErr | src/agents/rag_retriever.py:57-63 | once a prefix has failed, the later keys do not change the result |
| Retrieval.IndexFilter | src/rag/retriever.py:59-68 | a section filter is sent to the index only when it is a non-empty id |
| Retrieval.Projected | src/rag/retriever.py:79-87 | one search result per hit, in hit order |
| Retrieval.Search | src/rag/retriever.py:38-96 | index errors propagate; otherwise one result per hit, whose text is the payload's "text" or "" |
| Retrieval.Texts | src/rag/retriever.py:127 | the fragment texts in result order |
| Retrieval.SearchForSection | src/rag/retriever.py:98-128 | searches filtered by the section id first, and searches again unfiltered exactly when that search found nothing |
| Retrieval.JoinEmpty | src/rag/retriever.py:127-128 | joined fragments are empty exactly when there are none, or only one and it is empty |
| Retrieval.ContextEmptiness | src/rag/retriever.py:124-128 | the context is empty when both searches find nothing, and only then or when a single empty fragment came back |
| Retrieval.Take3 | src/agents/rag_retriever.py:84-85 | at most the first three functional requirements |
| Retrieval.SearchQueryDependsOnFirstThree | src/agents/rag_retriever.py:73-87 | the search query starts with the description and depends only on the summary and the first three functional requirements |
| Retrieval.ContextsOk | src/agents/rag_retriever.py:36-71 | requirements that are not an object fail as `.get` does; otherwise retrieval succeeds if and only if every section's search succeeds |
| Retrieval.ContextsContents | src/agents/rag_retriever.py:50-63 | successful retrieval maps exactly the requested (or default) section ids, each to its search result |
| Retrieval.ContextsFirstError | src/agents/rag_retriever.py:57-63 | failed retrieval reports the first failing section's error |
| Retrieval.Retrieve | src/agents/rag_retriever.py:36-71 | the agent's loop computes the contexts function |
| Sections.Bullets | src/agents/section_generator.py:170-183 | one "- item" line per requirement, in order |
| Sections.AppendGroup | src/agents/section_generator.py:170-183 | appends a requirement group: its heading and bullets when the list is present and non-empty |
| Sections.FormatRequirements | src/agents/section_generator.py:162-185 | the method builds the requirements text |
| Sections.RequirementsPlaceholder | src/agents/section_generator.py:162-185 | no lines exactly when summary and all three lists are absent or empty, and then the placeholder text is used |
| Sections.FunctionalRequirementsListed | src/agents/section_generator.py:166-173 | the summary line comes first; the functional heading follows it, then one bullet per functional requirement in order |
| Sections.SubsectionLines | src/agents/section_generator.py:187-197 | one line per subsection, in template order |
| Sections.FormatSubsectionsInstruction | src/agents/section_generator.py:187-197 | the method builds the subsection instruction |
| Sections.InstructionEmptyIffNoSubsections | src/agents/section_generator.py:187-197 | the instruction is empty if and only if the section has no subsections, and otherwise starts with its header |
| Sections.Stubs | src/agents/section_generator.py:111-114 | one empty subsection per template subsection, with its id and title |
| Sections.Generate | src/agents/section_generator.py:59-127 | non-object requirements fail as `.get` does; a generated section has the requested id, the template title (or the fallback title), one stub per subsection and a provenance |
| Sections.GeneratedSectionShape | src/agents/section_generator.py:89-117 | MamayLM is asked first with the section prompt; the section fails exactly when routing fails, and otherwise holds the answer text, provider and tokens, with empty subsections in template order |
| Sections.NotComplianceClass | src/agents/section_generator.py:99-105 | section generation is not a compliance task |
| Sections.EmptyContextIsPlaceholder | src/agents/section_generator.py:95 | an empty RAG context is treated exactly like "Контекст не знайдено." |
| Sections.GenerateAll | src/agents/section_generator.py:129-160 | the loop runs the template's ids in order and stops at the first error |
| Sections.GenerateAllShape | src/agents/section_generator.py:129-160 | on success, one section per template id, in order, with its id and title; on failure, the first failing id's error |
| Compliance.Hundredths | src/agents/compliance_checker.py:148 | the nearest number of hundredths, within half a hundredth |
| Compliance.Round2 | src/agents/compliance_checker.py:148 | `round(x, 2)` is within 0.005 of x and keeps a ratio within [0, 1] |
| Compliance.Round2OnGrid | src/agents/compliance_checker.py:148 | values already on the hundredths grid are unchanged |
| Compliance.ThreeEighthsRoundsToEven | src/agents/compliance_checker.py:145-148 | 3/8 rounds to 0.38: ties go to the even hundredth |
| Compliance.Missing | src/agents/compliance_checker.py:141-143 | the missing ids are exactly the mandatory ids that no section carries |
| Compliance.MissingKeepsOrder | src/agents/compliance_checker.py:143 | missing ids keep the mandatory list's order |
| Compliance.Ratio | src/agents/compliance_checker.py:145-146 | the present share of mandatory sections lies in [0, 1] |
| Compliance.StructuralCheck | src/agents/compliance_checker.py:134-151 | reports the present ids, exactly the missing mandatory ids, and a score in [0, 1] |
| Compliance.RatioAwayFromEnds | src/agents/compliance_checker.py:145-148 | with fewer than 200 mandatory ids, a partial share never rounds to 0 or to 1 |
| Compliance.StructuralScoreEnds | src/agents/compliance_checker.py:141-148 | nothing missing gives 1.0; no sections gives everything missing and 0.0; and, for fewer than 200 mandatory ids, 1.0 and 0.0 happen only in those cases |
| Compliance.NothingPresentMissesAll | src/agents/compliance_checker.py:142-143 | with no sections, every mandatory id is missing, in order |
| Compliance.DuplicateSectionIrrelevant | src/agents/compliance_checker.py:142 | repeating a section does not change the structural check |
| Compliance.Preview | src/agents/compliance_checker.py:161 | content up to 500 characters is kept whole; longer content becomes exactly its first 500 characters followed by "..." |
| Compliance.SectionBlocks | src/agents/compliance_checker.py:153-163 | one block per section, in order |
| Compliance.FormatSections | src/agents/compliance_checker.py:153-163 | the method builds the section listing |
| Compliance.MandatoryLines | src/agents/compliance_checker.py:165-172 | one line per mandatory id, in template order |
| Compliance.FormatMandatory | src/agents/compliance_checker.py:165-172 | the method builds the mandatory listing |
| Compliance.ListingsEmptyIffNothingListed | src/agents/compliance_checker.py:153-172 | each listing is empty if and only if there is nothing to list |
| Compliance.Merge | src/agents/compliance_checker.py:112-124 | the structural score, the missing ids and the provider come from the structural check and the call; the compliance score is the model's when given, else the structural score; `incomplete_sections`, `warnings`, `recommendations` and `section_scores` are the answer's values when given, else `[]`, `[]`, `[]` and `{}` |
| Compliance.UndecodedAnswerFallsBack | src/agents/compliance_checker.py:108-124 | an answer that cannot be decoded yields the structural score, empty lists and empty details |
| Compliance.ModelCannotOverrideStructure | src/agents/compliance_checker.py:113-118 | the model's answer never changes the structural score or the missing ids, and equal answers give equal reports |
| Compliance.Check | src/agents/compliance_checker.py:65-132 | only Claude is asked; its error is raised as it is; an answer whose payload is an object is merged with the structural check, and any other payload fails as `.get` does |
| Compliance.CheckAskedOfClaudeOnly | src/agents/compliance_checker.py:65-132 | the check calls only Claude; Claude's error is the check's error; a report carries the structural score and the missing ids |
| Assembler.Clean | src/agents/document_assembler.py:98-104 | an ordered section keeps id, title, content and subsections, and drops the provenance |
| Assembler.Index | src/agents/document_assembler.py:92 | the id index holds exactly the present ids, each mapped to a section with that id |
| Assembler.LastOccurrenceWins | src/agents/document_assembler.py:92 | when an id repeats, the index keeps its last section |
| Assembler.Kept | src/agents/document_assembler.py:95-96 | exactly the template ids that some section carries |
| Assembler.IdsOf | src/agents/document_assembler.py:95-104 | the ids of the sections, in order |
| Assembler.OrderSections | src/agents/document_assembler.py:84-107 | the loop walks the template ids and emits each present section's clean copy |
| Assembler.OrderedFollowsTemplate | src/agents/document_assembler.py:84-107 | the ordered ids are the template ids that are present, in template order, and each entry is the clean copy of the indexed section |
| Assembler.OrderedAgrees | src/agents/document_assembler.py:91-107 | ordering depends only on which template ids are present and on their clean sections |
| Assembler.KeptKeepsOrder | src/agents/document_assembler.py:95 | a numerically ordered template stays ordered after dropping ids |
| Assembler.NumericOrderDistinct | src/agents/document_assembler.py:95 | a numerically ordered id list has no repeats |
| Assembler.OrderingIdempotent | src/agents/document_assembler.py:84-107 | ordering an already ordered list changes nothing |
| Assembler.Assemble | src/agents/document_assembler.py:32-82 | fails exactly when the requirements are not an object; the document carries the project id and name, the ordered sections, metadata with the section count, and the compliance fields, or their defaults without a report |
| Chunker.LabelRun | src/rag/chunker.py:92 | the longest run of digits and dots at the position |
| Chunker.SpaceRun | src/rag/chunker.py:92 | the longest run of whitespace at the position |
| Chunker.DigitRun | src/rag/chunker.py:92 | the longest run of leading digits |
| Chunker.LastNonNewline | src/rag/chunker.py:92 | the last position before the end that is not a newline |
| Chunker.LineEnd | src/rag/chunker.py:91-94 | the end of the line in `re.MULTILINE` mode |
| Chunker.HeaderAt | src/rag/chunker.py:91-94 | a header match starting at the position has the pattern's shape and label |
| Chunker.HeadersFrom | src/rag/chunker.py:96 | the non-overlapping matches, in order, from the position on |
| Chunker.Headers | src/rag/chunker.py:96 | all header matches of the text, in order and non-overlapping |
| Chunker.RStripDots | src/rag/chunker.py:104 | `rstrip(".")`: a prefix not ending in a dot, after which only dots were removed |
| Chunker.BodyStop | src/rag/chunker.py:106-107 | a section body ends at the next header's start or at the end of the text |
| Chunker.HeaderGroups | src/rag/chunker.py:103-109 | one group per header match |
| Chunker.WithBodyMembers | src/rag/chunker.py:110-111 | exactly the groups with a non-empty body are kept |
| Chunker.SplitBySections | src/rag/chunker.py:82-113 | the method builds the section groups |
| Chunker.KeepWithBody | src/rag/chunker.py:110-111 | the loop keeps exactly the groups with a body |
| Chunker.HeaderGroupHasShape | src/rag/chunker.py:103-111 | a kept group has a dotted-number id, a stripped title and a stripped non-empty body |
| Chunker.StripIsSlice | src/rag/chunker.py:108 | a stripped body is a slice of the text between its bounds |
| Chunker.SectionGroupsShape | src/rag/chunker.py:96-113 | no header gives the whole text as one unlabelled group; otherwise every group is a labelled, stripped, non-empty section |
| Chunker.FirstSnapping | src/rag/chunker.py:137-141 | the first sentence separator found strictly after the window start |
| Chunker.FirstSnappingIsFirst | src/rag/chunker.py:137-141 | no earlier separator in the list snaps |
| Chunker.Snap | src/rag/chunker.py:135-141 | the cut moves back to just after a separator found past the start, or stays at the window end |
| Chunker.SnapCut | src/rag/chunker.py:135-141 | the separator loop computes that cut |
| Chunker.WindowEnd | src/rag/chunker.py:132-141 | each window is non-empty and at most `chunk_size` long |
| Chunker.NextStart | src/rag/chunker.py:147 | the next window starts strictly after the current start, and it is `end - chunk_overlap` whenever that value already advances (the model's advancing loop; the source's loop gives the same while every `end - chunk_overlap` lies past the window's start, Chunker.SplitAgreesWhileAdvancing) |
| Chunker.Windows | src/rag/chunker.py:129-147 | the windows the loop visits, each non-empty and starting inside the text (the model's advancing loop; the source's loop gives the same while every `end - chunk_overlap` lies past the window's start, Chunker.SplitAgreesWhileAdvancing) |
| Chunker.WindowsStep | src/rag/chunker.py:131-147 | each window ends where the cut rule says, and the next one starts at the next start while that is inside the text |
| Chunker.CutAt | src/rag/chunker.py:132-141 | the method computes the window end |
| Chunker.ChunkAt | src/rag/chunker.py:143 | the method computes the stripped window text |
| Chunker.PiecesSnoc | src/rag/chunker.py:143-145 | one more window appends its chunk when that chunk is non-empty |
| Chunker.SplitText | src/rag/chunker.py:115-149 | the loop returns exactly the stripped non-empty window texts (the model's advancing loop; the source's loop gives the same while every `end - chunk_overlap` lies past the window's start, Chunker.SplitAgreesWhileAdvancing) |
| Chunker.WindowsCover | src/rag/chunker.py:129-147 | the windows start at 0, reach the end of the text, and overlap or touch without gaps (the model's advancing loop; the source's loop gives the same while every `end - chunk_overlap` lies past the window's start, Chunker.SplitAgreesWhileAdvancing) |
| Chunker.WindowsCoverPosition | src/rag/chunker.py:129-147 | every position of the text lies in some window (the model's advancing loop; the source's loop gives the same while every `end - chunk_overlap` lies past the window's start, Chunker.SplitAgreesWhileAdvancing) |
| Chunker.PiecesAreSlices | src/rag/chunker.py:143-145 | every chunk is a stripped non-empty slice of the text |
| Chunker.PiecesFirst | src/rag/chunker.py:143-145 | the first chunk is the first window's text when that is non-empty |
| Chunker.PiecesTwo | src/rag/chunker.py:143-145 | two windows with text give at least two chunks |
| Chunker.WindowWithText | src/rag/chunker.py:143-144 | a window over a non-space character yields a chunk |
| Chunker.LongTextSplits | src/rag/chunker.py:125-149 | a text longer than `chunk_size`, with text at the start and past `chunk_size`, splits into at least two chunks |
| Chunker.SplitShape | src/rag/chunker.py:125-149 | a short text is returned whole; a long one as stripped non-empty slices |
| Chunker.StallAsWritten | src/rag/chunker.py:147 | on "a. bbbbbbbbbb" with size 10 and overlap 3 the first window ends at 3, and the start as written goes back to 0 |
| Chunker.PyBound | src/rag/chunker.py:138 | Python's reading of a slice or `rfind` bound: a bound inside the text is kept, a negative one counts from the end, and the result lies within the text |
| Chunker.SliceBounds | src/rag/chunker.py:143 | the slice `text[start:end]` for any integer bounds: both normalised bounds lie within the text, the slice empty when they cross |
| Chunker.SnapAgrees | src/rag/chunker.py:137-141 | from a start inside the text the separator loop as written, on integers and Python bounds, cuts where Chunker.Snap does |
| Chunker.WindowEndAgrees | src/rag/chunker.py:132-141 | from a start inside the text the window end as written is Chunker.WindowEnd |
| Chunker.SliceBoundsPiece | src/rag/chunker.py:143-145 | a slice taken from inside the text strips to the same chunk as the model's window |
| Chunker.LoopStep | src/rag/chunker.py:131-147 | one round of the loop as written puts its window's chunk before the chunks of the rounds from `end - chunk_overlap` on |
| Chunker.ChainSpans | src/rag/chunker.py:131-147 | the windows the loop as written visits all start inside the text |
| Chunker.LoopOfChain | src/rag/chunker.py:131-149 | along a chain of windows that each advance, the loop as written ends within as many rounds as there are windows, with their chunks in order |
| Chunker.PiecesFwdIsPieces | src/rag/chunker.py:143-145 | collecting chunks front to back gives the same list as appending them one window at a time |
| Chunker.WindowsChain | src/rag/chunker.py:131-147 | when every window's `end - chunk_overlap` lies past its start, the model's windows are the ones the loop as written visits, and there are at most as many as characters left |
| Chunker.SplitAgreesWhileAdvancing | src/rag/chunker.py:115-149 | under that condition `_split_text` as written ends within `len(text)` rounds and returns exactly Chunker.Split's chunks |
| Chunker.StallLoop | src/rag/chunker.py:131-147 | a loop whose window at 0 leads back to start 0 never ends, however many rounds it runs |
| Chunker.StallNeverEnds | src/rag/chunker.py:131-147 | on "a. bbbbbbbbbb" with size 10 and overlap 3, `_split_text` as written does not end in any number of rounds |
| Chunker.SkipFirstCut | src/rag/chunker.py:132-141 | on "a. bbbbbbb" with size 9 the first window snaps back to 3, as written and in the model |
| Chunker.SkipFirstPiece | src/rag/chunker.py:143-145 | that first window's chunk is "a." |
| Chunker.SkipBackWindow | src/rag/chunker.py:132-145 | from start -1 Python reads the bound as 9: `rfind` searches the empty range 9 to 8, the end stays 8, and `text[-1:8]` is empty |
| Chunker.SkipRunPieces | src/rag/chunker.py:143-145 | the chunks of the windows over the run of `b`s |
| Chunker.SkipWindows | src/rag/chunker.py:131-147 | the model's windows of "a. bbbbbbb" with size 9 and overlap 4 start at 0, 3 and 8 |
| Chunker.SkipModel | src/rag/chunker.py:115-149 | the model splits "a. bbbbbbb" into "a.", seven `b`s and two `b`s, so every `b` is in a chunk |
| Chunker.SkipLoopWindows | src/rag/chunker.py:132-145 | the window ends and chunks the loop as written meets on "a. bbbbbbb" from starts 0, -1, 4 and 9 |
| Chunker.SkipLoopWith | src/rag/chunker.py:131-147 | four rounds from starts 0, -1, 4 and 9 with those ends and chunks give "a.", six `b`s and one `b` |
| Chunker.SkipAsWritten | src/rag/chunker.py:131-147 | on "a. bbbbbbb" with size 9 and overlap 4 the start as written becomes -1, the window from -1 is empty, the next start is 4, and the loop ends with "a.", six `b`s and one `b`: the `b` at position 3 is in no chunk |
| Chunker.ThreePieces | src/rag/chunker.py:143-145 | three windows with one chunk each give those three chunks in order |
| Chunker.SplitThree | src/rag/chunker.py:125-149 | a text longer than `chunk_size` whose three windows have one chunk each splits into those three chunks |
| Chunker.GroupChunks | src/rag/chunker.py:60-71 | one chunk per piece, stripped, carrying the group's id and title, the source file and its index within the group |
| Chunker.AppendGroupChunks | src/rag/chunker.py:62-71 | the inner loop appends exactly the group's chunks |
| Chunker.ChunkGroups | src/rag/chunker.py:59-71 | the outer loop produces the chunks of all groups, in order (the model's advancing loop; the source's loop gives the same while every `end - chunk_overlap` lies past the window's start, Chunker.SplitAgreesWhileAdvancing) |
| Chunker.ChunkDocument | src/rag/chunker.py:41-80 | the method produces the document's chunks (the model's advancing loop; the source's loop gives the same while every `end - chunk_overlap` lies past the window's start, Chunker.SplitAgreesWhileAdvancing) |
| Chunker.NumberedConcat | src/rag/chunker.py:69 | numbering restarts or continues within a group across concatenation |
| Chunker.ChunksNumbered | src/rag/chunker.py:62-69 | chunk indices start at 0 in each group and rise by one within it; every chunk carries the source file |
| Chunker.SplitOfStripped | src/rag/chunker.py:125-145 | a stripped non-empty body yields at least one chunk, each stripped and non-empty |
| Chunker.ChunksOfKeptGroups | src/rag/chunker.py:60-71 | kept groups give no chunks only when there are none; every chunk is stripped, non-empty and has a section id |
| Chunker.ChunksOfDocument | src/rag/chunker.py:57-80 | without headers the text is chunked as one unlabelled group; with headers every chunk is stripped, non-empty and labelled |
| Projects.EditableOf | src/services/project_service.py:119-121 | the editable view holds the project's name, description and status |
| Projects.Assign | src/services/project_service.py:120-121 | `setattr` changes the assigned field and no other |
| Projects.UnassignedFieldKept | src/services/project_service.py:119-121 | a field no assignment names keeps its value |
| Projects.LastAssignmentWins | src/services/project_service.py:119-121 | a field assigned several times ends with its last value |
| Projects.Commit | src/services/project_service.py:123-124 | the commit fails exactly when the name or status became null; otherwise the row keeps its id and template and holds the edited fields |
| Projects.EmptyUpdateKeepsProject | src/services/project_service.py:102-127 | an update with no fields leaves the project as it was |
| Projects.NewestFirst | src/services/project_service.py:91-98 | the page has the size that `offset`/`limit` give, and its projects run from newest to oldest starting at the offset |
| Projects.PagesConcatenate | src/services/project_service.py:92-97 | two adjacent pages together are the page covering both |
| Projects.ProjectStore.constructor | src/services/project_service.py:21-22 | a new store holds no projects |
| Projects.ProjectStore.Create | src/services/project_service.py:24-45 | inserts a draft project with the given fields and the default template, appended as newest |
| Projects.ProjectStore.GetById | src/services/project_service.py:47-68 | returns the stored project, or ProjectNotFoundError naming the id |
| Projects.ProjectStore.ListAll | src/services/project_service.py:70-100 | returns the newest-first page and the total count |
| Projects.ProjectStore.ListAllFromStart | src/services/project_service.py:70-100 | a page from 0 as large as the table lists every project exactly once |
| Projects.ProjectStore.Update | src/services/project_service.py:102-127 | a missing id is ProjectNotFoundError and changes nothing; otherwise the assignments are applied and committed, and only a successful commit is stored |
| Projects.ProjectStore.UpdateStatus | src/services/project_service.py:129-146 | a missing id is ProjectNotFoundError; otherwise only the status changes |
| Projects.UpdateChangesOnlyAssigned | src/services/project_service.py:102-127 | an update keeps the id and template, and every field it does not assign |
| Documents.OfProject | src/services/document_service.py:73-77 | exactly the documents of the project |
| Documents.Newest | src/services/document_service.py:73-78 | the project's most recently stored document, or none exists |
| Documents.SecondDocumentBreaksLookup | src/services/document_service.py:73-78 | with two documents for one project, the lookup as written fails with a multiple-rows error, while the newest one exists |
| Documents.OfProjectCount | src/services/document_service.py:73-77 | two documents of one project make the query return at least two rows |
| Documents.LookupAgreesWhenSingle | src/services/document_service.py:73-78 | with at most one document per project, the lookup as written and the corrected lookup agree |
| Documents.FirstWithId | src/services/document_service.py:107-111 | the first section with the id, or none has it |
| Documents.FindSection | src/services/document_service.py:107-111 | the scan finds that first section |
| Documents.ReadBack | src/services/document_service.py:107-116 | after an update, the same section is found and holds the new content |
| Documents.ReplaceIdempotent | src/services/document_service.py:107-110 | writing the same content twice is writing it once |
| Documents.UpdateKeepsEverythingElse | src/services/document_service.py:107-116 | only the content of the chosen section changes |
| Documents.DocumentStore.constructor | src/services/document_service.py:22-23 | a new store holds no documents |
| Documents.DocumentStore.Create | src/services/document_service.py:25-61 | appends a completed document with the given fields, and metadata `{}` when none is given |
| Documents.DocumentStore.GetByProjectId | src/services/document_service.py:63-78 | returns the project's newest stored document (no later document belongs to the project), and none exactly when the project has no document |
| Documents.DocumentStore.UpdateSection | src/services/document_service.py:80-125 | no document or no such section is an error that changes nothing; otherwise the project's newest document gets the section's new content (found by the corrected lookup; see Findings) |
| Generation.ApplyAllKeepsIdentity | src/services/generation_service.py:274-298 | updates keep the generation task's id, project and start time; after them, progress, status and step are the last update's |
| Generation.CompletedAtIffTerminal | src/services/generation_service.py:296-297 | the completion time is set exactly when some update is "completed" or "failed" |
| Generation.ErrorMessageIsLastError | src/services/generation_service.py:294-295 | the error message is the last non-empty error given |
| Generation.ErrorMessageKept | src/services/generation_service.py:294-295 | updates without an error keep the previous message |
| Generation.ProgressUpdateAbsorbed | src/services/generation_service.py:290-297 | a plain progress update is overwritten by the next one |
| Generation.SequentialPlan | src/services/generation_service.py:256-261 | ten "processing" updates, one per section |
| Generation.SequentialProgressRises | src/services/generation_service.py:258 | sequential progress rises strictly from 0.26 to 0.8 |
| Generation.SuccessPlanShape | src/services/generation_service.py:123-187 | a successful run makes 6 updates (parallel) or 15 (sequential), from 0.1 rising strictly to the final "completed" update, with no error before it |
| Generation.MiddlePlanShape | src/services/generation_service.py:141-156 | the section-generation updates lie strictly between 0.2 and 0.9 and rise |
| Generation.PlanAt | src/services/generation_service.py:123-187 | the plan is the analysis and retrieval updates, then the section updates, then the check, assembly and completion updates |
| Generation.Stamp | src/services/generation_service.py:274-298 | the calls made for a list of updates, in order |
| Generation.StandardKeepsIds | src/agents/section_generator.py:107-117 | the wired-in section generator returns sections with the requested id |
| Generation.Gathered | src/services/generation_service.py:217-228 | one outcome per section "1" to "10", in order |
| Generation.Settled | src/services/generation_service.py:230-243 | one section per outcome, in order |
| Generation.SettledShape | src/services/generation_service.py:228-243 | failed sections become placeholders carrying the error, and the others are kept, with ids "1" to "10" |
| Generation.ParallelShape | src/services/generation_service.py:206-243 | parallel generation never fails and yields ten sections: each generated one, or a placeholder for each failure |
| Generation.AttemptedShape | src/services/generation_service.py:256-270 | sequential generation attempts every section on success, and stops at the first failure, reporting its error |
| Generation.FirstFailure | src/services/generation_service.py:256-270 | the first failing section decides the result and the number of attempts |
| Generation.AttemptedAtFirstFailure | src/services/generation_service.py:256-270 | the attempts end with the first failing section |
| Generation.ParallelFailsOnlyOutsideSections | src/services/generation_service.py:105-204 | in parallel mode, once analysis and retrieval have succeeded, a failed run failed in the compliance check or in assembly |
| Generation.Gather | src/services/generation_service.py:217-228 | the gather collects every section's outcome |
| Generation.SettleAll | src/services/generation_service.py:230-241 | the loop settles every outcome |
| Generation.ReachedThenFailed | src/services/generation_service.py:193-204 | a failure after a prefix of the plan leaves that prefix followed by the failure update |
| Generation.GenerationService.constructor | src/services/generation_service.py:40-50 | a new service holds no tasks and has made no updates |
| Generation.GenerationService.UpdateTask | src/services/generation_service.py:274-298 | records the call and applies the update to the generation task when it exists, and changes nothing else |
| Generation.GenerationService.GetTaskStatus | src/services/generation_service.py:300-307 | the stored task, or none for an unknown id |
| Generation.GenerationService.StartGeneration | src/services/generation_service.py:52-103 | an unknown project is ProjectNotFoundError and changes nothing; otherwise a processing task at 0 is stored, the project becomes "generating", and the run carries the description or "" and the additional requirements or none |
| Generation.GenerationService.GenerateParallel | src/services/generation_service.py:206-243 | one 0.3 update, then every section generated and settled |
| Generation.GenerationService.GenerateSequential | src/services/generation_service.py:245-272 | the result is the stop-at-first-error run over "1" to "10", with one progress update per attempted section |
| Generation.GenerationService.Checkpoint | src/services/generation_service.py:125 | one progress update of the plan, moving on by one step |
| Generation.GenerationService.RunGeneration | src/services/generation_service.py:105-204 | success makes every update of the plan, stores the document and marks the project completed; failure makes a prefix of the plan, then the "failed" update, and marks the project failed |
| Generation.GenerationService.Attempt | src/services/generation_service.py:123-187 | the try block computes the run's outcome after a non-empty prefix of the plan |
| Generation.GenerationService.Prepare | src/services/generation_service.py:125-156 | analysis, retrieval and section generation, with their progress updates |
| Generation.GenerationService.GenerateSections | src/services/generation_service.py:141-156 | the chosen mode's sections, with that mode's progress updates |
| Generation.GenerationService.Finish | src/services/generation_service.py:159-187 | compliance check, assembly and saving, with their progress updates |
| Generation.GenerationService.AssembleAndSave | src/services/generation_service.py:166-187 | assembly and, on success, the stored document and the completed project |
| Generation.GenerationService.Save | src/services/generation_service.py:176-185 | the document is appended, the generation task reaches 1.0 "completed", and the project becomes completed |

## Left out

- Compliance.Round2: `round` acts on binary floats in the source. The model rounds exact reals half-to-even. Values that a float stores just off a tie may round the other way.
- Progress values and scores are exact reals, not floats.
- Chunker.LabelRun, Chunker.DigitRun: `\d` matches only the ASCII digits. Python's `\d` also matches the other Unicode decimal digits, such as Arabic-Indic ones.
- Json.NonEmptyText, Json.NonEmptyList: a requirements value of the wrong type (a number where the summary should be, a string or mixed list where a list of strings should be) is treated as absent. The source behaves differently here. It iterates a string `functional_requirements` character by character (src/agents/section_generator.py:172, src/agents/rag_retriever.py:85). It formats a non-string summary or item with `str` in the section prompt. It raises TypeError when `" ".join` or `"; ".join` meets a non-string (src/agents/rag_retriever.py:85-87).
- Prompt texts are parameters (`Agents.PromptTexts`). Their wording is not modelled.
- Clocks, `uuid4` and database ids are parameters. Their freshness is a precondition.
- Logging is not modelled.
- Chunker.SplitText: requires a positive `chunk_size`. With size 0 the source never ends.
- Chunker.NextStart: models the advancing next start, not the source's `start = end - chunk_overlap` (src/rag/chunker.py:147). The two agree whenever every `end - chunk_overlap` lies past the window's start (Chunker.SplitAgreesWhileAdvancing). On every other input the model departs from the source, which then revisits or skips windows: where the value equals the start the source loops forever (Chunker.StallNeverEnds), and where it is -1 Python reads it as the last position, the window is empty, and the source drops text and still ends (Chunker.SkipAsWritten).
- Chunker.Windows: models the advancing next start, not the source's `start = end - chunk_overlap` (src/rag/chunker.py:147). The two agree whenever every `end - chunk_overlap` lies past the window's start (Chunker.SplitAgreesWhileAdvancing). On every other input the model departs from the source, which then revisits or skips windows: where the value equals the start the source loops forever (Chunker.StallNeverEnds), and where it is -1 Python reads it as the last position, the window is empty, and the source drops text and still ends (Chunker.SkipAsWritten).
- Chunker.SplitText: models the advancing next start, not the source's `start = end - chunk_overlap` (src/rag/chunker.py:147). The two agree whenever every `end - chunk_overlap` lies past the window's start (Chunker.SplitAgreesWhileAdvancing). On every other input the model departs from the source, which then revisits or skips windows: where the value equals the start the source loops forever (Chunker.StallNeverEnds), and where it is -1 Python reads it as the last position, the window is empty, and the source drops text and still ends (Chunker.SkipAsWritten).
- Chunker.WindowsCover: models the advancing next start, not the source's `start = end - chunk_overlap` (src/rag/chunker.py:147). The two agree whenever every `end - chunk_overlap` lies past the window's start (Chunker.SplitAgreesWhileAdvancing). On every other input the model departs from the source, which then revisits or skips windows: where the value equals the start the source loops forever (Chunker.StallNeverEnds), and where it is -1 Python reads it as the last position, the window is empty, and the source drops text and still ends (Chunker.SkipAsWritten).
- Chunker.WindowsCoverPosition: models the advancing next start, not the source's `start = end - chunk_overlap` (src/rag/chunker.py:147). The two agree whenever every `end - chunk_overlap` lies past the window's start (Chunker.SplitAgreesWhileAdvancing). On every other input the model departs from the source, which then revisits or skips windows: where the value equals the start the source loops forever (Chunker.StallNeverEnds), and where it is -1 Python reads it as the last position, the window is empty, and the source drops text and still ends (Chunker.SkipAsWritten).
- Chunker.ChunkGroups: models the advancing next start, not the source's `start = end - chunk_overlap` (src/rag/chunker.py:147). The two agree whenever every `end - chunk_overlap` lies past the window's start (Chunker.SplitAgreesWhileAdvancing). On every other input the model departs from the source, which then revisits or skips windows: where the value equals the start the source loops forever (Chunker.StallNeverEnds), and where it is -1 Python reads it as the last position, the window is empty, and the source drops text and still ends (Chunker.SkipAsWritten).
- Chunker.ChunkDocument: models the advancing next start, not the source's `start = end - chunk_overlap` (src/rag/chunker.py:147). The two agree whenever every `end - chunk_overlap` lies past the window's start (Chunker.SplitAgreesWhileAdvancing). On every other input the model departs from the source, which then revisits or skips windows: where the value equals the start the source loops forever (Chunker.StallNeverEnds), and where it is -1 Python reads it as the last position, the window is empty, and the source drops text and still ends (Chunker.SkipAsWritten).
- Projects.ProjectStore.ListAll: `skip` and `limit` are natural numbers. Negative values are not modelled.
- Projects.Commit: the NOT NULL failure is an error value. The rollback and the database's message text are not modelled.
- Generation.GenerationService.StartGeneration: returns the run that `asyncio.create_task` would start. `RunGeneration` runs it separately. Interleaving with other requests is not modelled.
- Generation.GenerationService.GenerateParallel: `asyncio.gather` is modelled as a sequence of independent calls. Their results do not depend on each other, so the order does not matter.
- Projects are never deleted, because the source has no delete.
- Database errors other than NOT NULL and the multiple-rows lookup are not modelled.
- The orchestrator receives the agents as functions (`Generation.Environment`). `Generation.Standard` wires in the modelled agents.
- Generation.ParallelShape: requires `KeepsIds`, which `Generation.StandardKeepsIds` proves for the wired-in agents.
- Chunker.LongTextSplits: proved only when the text has a non-space first character and a non-space character past `chunk_size`.
- Embedding calls, the Qdrant client and the LLM HTTP clients are function parameters.
- `LLMRouter.close` is not modelled, and neither is the I/O of the health checks.
- The HTTP routes, the configuration, the ingestion scripts and the database schema are not part of this model.

## Findings

| source | as written | input that shows it | evidently intended | confidence | as-written member | corrected member |
|---|---|---|---|---|---|---|
| src/rag/chunker.py:147 | `start = end - self.chunk_overlap` after snapping the cut to a sentence end | text "a. bbbbbbbbbb" with `chunk_size=10` and `chunk_overlap=3`: the cut snaps to 3, and the next start is 0 again, so the loop never ends | each window starts after the previous one | not executed | Chunker.StallNeverEnds | Chunker.NextStart |
| src/rag/chunker.py:138-147 | `start = end - self.chunk_overlap`, then `text.rfind(sep, start, end)` and `text[start:end]` with that start | text "a. bbbbbbb" (length 10) with `chunk_size=9` and `chunk_overlap=4`: the cut snaps to 3 and the next start is -1. Python reads -1 as 9 in `rfind` and in the slice, so the window is `text[9:8]`, empty, and gives no chunk; the next start is 8 - 4 = 4. The result is "a.", "bbbbbb", "b": the `b` at position 3 is silently dropped, and the loop still ends | each window starts after the previous one, and no text is lost | not executed | Chunker.SkipAsWritten | Chunker.NextStart |
| src/services/document_service.py:73-78 | `scalar_one_or_none()` on all documents of a project | a project generated twice has two documents, and the lookup raises a multiple-rows error | return the project's newest document, which the `created_at` descending order puts first; `update_section` (line 100) goes through the same lookup, so Documents.DocumentStore.UpdateSection also edits the newest document where the code as written raises | not executed | Documents.SecondDocumentBreaksLookup | Documents.DocumentStore.GetByProjectId |
