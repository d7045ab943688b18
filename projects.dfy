/** The project store (src/services/project_service.py): projects kept by id, together
    with the order they were created in, which is the order `created_at` gives them.
    The database session is the store itself; ids are handed in by the caller, as the
    model's `generate_uuid` default hands them to the database. */
module Projects {
  import opened Wrappers
  import opened Errors

  const DefaultTemplate: string := "kmu_205"
  const Draft: string := "draft"

  /** What the database reports when a required column is set to null at flush time. */
  const NotNullViolation: string := "NOT NULL constraint failed"

  datatype Project = Project(id: string, name: string, description: Option<string>, templateType: string, status: string)

  /** `ProjectCreate`; `templateType` is `None` when the caller left the schema default. */
  datatype NewProject = NewProject(name: string, description: Option<string>, templateType: Option<string>)

  /** The fields `ProjectUpdate` can set. */
  datatype Field = Name | Description | Status

  /** One entry of `data.model_dump(exclude_unset=True)`: a field the caller set
      explicitly, with its value (`None` is an explicit null). */
  datatype Assignment = Assignment(field: Field, value: Option<string>)

  /** The editable fields of a project while `update` assigns them; `name` and `status`
      may hold a null until the flush rejects it. */
  datatype Editable = Editable(name: Option<string>, description: Option<string>, status: Option<string>) {
    function Get(f: Field): Option<string> {
      match f
      case Name => name
      case Description => description
      case Status => status
    }
  }

  function EditableOf(p: Project): (e: Editable)
    ensures e.Get(Name) == Some(p.name) && e.Get(Description) == p.description && e.Get(Status) == Some(p.status)
  {
    Editable(Some(p.name), p.description, Some(p.status))
  }

  /** `setattr(project, key, value)`. */
  function Assign(e: Editable, a: Assignment): (r: Editable)
    ensures r.Get(a.field) == a.value
    ensures forall f :: f != a.field ==> r.Get(f) == e.Get(f)
  {
    match a.field
    case Name => e.(name := a.value)
    case Description => e.(description := a.value)
    case Status => e.(status := a.value)
  }

  /** The assignments made one after another. */
  function AssignAll(e: Editable, assignments: seq<Assignment>): Editable
    decreases |assignments|
  {
    if assignments == [] then e
    else Assign(AssignAll(e, assignments[..|assignments| - 1]), assignments[|assignments| - 1])
  }

  /** A field no assignment names keeps its value. */
  lemma {:induction false} UnassignedFieldKept(e: Editable, assignments: seq<Assignment>, f: Field)
    requires forall i :: 0 <= i < |assignments| ==> assignments[i].field != f
    ensures AssignAll(e, assignments).Get(f) == e.Get(f)
    decreases |assignments|
  {
    if assignments != [] {
      UnassignedFieldKept(e, assignments[..|assignments| - 1], f);
    }
  }

  /** A field takes the value of the last assignment that names it. */
  lemma {:induction false} LastAssignmentWins(e: Editable, assignments: seq<Assignment>, i: nat)
    requires i < |assignments|
    requires forall j :: i < j < |assignments| ==> assignments[j].field != assignments[i].field
    ensures AssignAll(e, assignments).Get(assignments[i].field) == assignments[i].value
    decreases |assignments|
  {
    var init := assignments[..|assignments| - 1];
    if i < |init| {
      assert init[i] == assignments[i];
      LastAssignmentWins(e, init, i);
    }
  }

  /** The flush after the assignments: a null name or status is refused by the
      database; otherwise the project takes the new values and keeps its id and
      template. */
  function Commit(p: Project, e: Editable): (r: Result<Project, Error>)
    ensures r.Ok? <==> e.name.Some? && e.status.Some?
    ensures r.Err? ==> r.error == Other(NotNullViolation)
    ensures r.Ok? ==> && r.value.id == p.id && r.value.templateType == p.templateType
                      && EditableOf(r.value) == e
  {
    if e.name.None? || e.status.None? then Err(Other(NotNullViolation))
    else Ok(Project(p.id, e.name.value, e.description, p.templateType, e.status.value))
  }

  /** An update that sets nothing leaves the project as it was. */
  lemma EmptyUpdateKeepsProject(p: Project)
    ensures Commit(p, AssignAll(EditableOf(p), [])) == Ok(p)
  {
  }

  /** The projects of a store listed newest first from `skip`, at most `limit` of them. */
  function NewestFirst(projects: map<string, Project>, order: seq<string>, skip: nat, limit: nat): (r: seq<Project>)
    requires forall i :: 0 <= i < |order| ==> order[i] in projects
    ensures |r| == if skip >= |order| then 0 else if |order| - skip < limit then |order| - skip else limit
    ensures forall i :: 0 <= i < |r| ==> r[i] == projects[order[|order| - 1 - (skip + i)]]
  {
    var count := if skip >= |order| then 0 else if |order| - skip < limit then |order| - skip else limit;
    seq(count, i requires 0 <= i < count => projects[order[|order| - 1 - (skip + i)]])
  }

  /** Two consecutive pages together are the page that spans both: paging neither skips
      nor repeats a project. */
  lemma PagesConcatenate(projects: map<string, Project>, order: seq<string>, skip: nat, a: nat, b: nat)
    requires forall i :: 0 <= i < |order| ==> order[i] in projects
    ensures NewestFirst(projects, order, skip, a) + NewestFirst(projects, order, skip + a, b)
         == NewestFirst(projects, order, skip, a + b)
  {
    var p := NewestFirst(projects, order, skip, a);
    var q := NewestFirst(projects, order, skip + a, b);
    var r := NewestFirst(projects, order, skip, a + b);
    assert |p + q| == |r|;
    forall i | 0 <= i < |r| ensures (p + q)[i] == r[i] {
      if i >= |p| {
        assert (p + q)[i] == q[i - |p|];
      }
    }
  }

  class ProjectStore {
    var projects: map<string, Project>
    /** Project ids, oldest first. */
    var order: seq<string>

    ghost predicate Valid()
      reads this
    {
      && (forall i :: 0 <= i < |order| ==> order[i] in projects)
      && (forall id :: id in projects ==> id in order)
      && (forall i, j :: 0 <= i < j < |order| ==> order[i] != order[j])
      && (forall id :: id in projects ==> projects[id].id == id)
    }

    constructor()
      ensures Valid() && projects == map[] && order == []
    {
      projects := map[];
      order := [];
    }

    /** `ProjectService.create`: a new project in status "draft", with the template the
        caller chose or "kmu_205". */
    method Create(id: string, data: NewProject) returns (p: Project)
      requires Valid() && id !in projects
      modifies this
      ensures Valid()
      ensures p == Project(id, data.name, data.description, data.templateType.GetOr(DefaultTemplate), Draft)
      ensures projects == old(projects)[id := p] && order == old(order) + [id]
    {
      p := Project(id, data.name, data.description, data.templateType.GetOr(DefaultTemplate), Draft);
      projects := projects[id := p];
      order := order + [id];
    }

    /** `ProjectService.get_by_id`. */
    method GetById(id: string) returns (r: Result<Project, Error>)
      ensures r.Ok? <==> id in projects
      ensures r.Ok? ==> r.value == projects[id]
      ensures r.Err? ==> r.error == ProjectNotFound(id)
    {
      if id in projects {
        r := Ok(projects[id]);
      } else {
        r := Err(ProjectNotFound(id));
      }
    }

    /** `ProjectService.list_all`: the page, newest first, and the number of all
        projects whatever the page. */
    function ListAll(skip: nat, limit: nat): (r: (seq<Project>, nat))
      reads this
      requires Valid()
      ensures r.1 == |order|
      ensures |r.0| <= limit
      ensures r.0 == NewestFirst(projects, order, skip, limit)
    {
      (NewestFirst(projects, order, skip, limit), |order|)
    }

    /** The first page as large as the store lists every project once. */
    lemma ListAllFromStart()
      requires Valid()
      ensures var page := ListAll(0, |order|).0;
              && (forall id :: id in projects <==> exists i :: 0 <= i < |page| && page[i].id == id)
              && (forall i, j :: 0 <= i < j < |page| ==> page[i].id != page[j].id)
    {
      var page := ListAll(0, |order|).0;
      forall id | id in projects ensures exists i :: 0 <= i < |page| && page[i].id == id {
        var k :| 0 <= k < |order| && order[k] == id;
        assert page[|order| - 1 - k] == projects[order[k]];
      }
    }

    /** `ProjectService.update`: the explicitly set fields are assigned in order, then
        flushed; an unknown project raises before anything changes, and a refused flush
        leaves the project as it was. */
    method Update(id: string, assignments: seq<Assignment>) returns (r: Result<Project, Error>)
      requires Valid()
      modifies this
      ensures Valid() && order == old(order)
      ensures id !in old(projects) ==> r == Err(ProjectNotFound(id)) && projects == old(projects)
      ensures id in old(projects) ==>
                && r == Commit(old(projects)[id], AssignAll(EditableOf(old(projects)[id]), assignments))
                && projects == (if r.Ok? then old(projects)[id := r.value] else old(projects))
    {
      var found := GetById(id);
      if found.Err? {
        return found;
      }
      var p := found.value;
      var e := EditableOf(p);
      var i := 0;
      while i < |assignments|
        invariant 0 <= i <= |assignments|
        invariant e == AssignAll(EditableOf(p), assignments[..i])
      {
        assert assignments[..i + 1][..i] == assignments[..i];
        e := Assign(e, assignments[i]);
        i := i + 1;
      }
      assert assignments[..i] == assignments;
      r := Commit(p, e);
      if r.Ok? {
        projects := projects[id := r.value];
      }
    }

    /** `ProjectService.update_status`: only the status changes. */
    method UpdateStatus(id: string, status: string) returns (r: Result<Project, Error>)
      requires Valid()
      modifies this
      ensures Valid() && order == old(order)
      ensures id !in old(projects) ==> r == Err(ProjectNotFound(id)) && projects == old(projects)
      ensures id in old(projects) ==>
                && r == Ok(old(projects)[id].(status := status))
                && projects == old(projects)[id := r.value]
    {
      var found := GetById(id);
      if found.Err? {
        return found;
      }
      r := Ok(found.value.(status := status));
      projects := projects[id := r.value];
    }
  }

  /** An update changes only the fields it names: the id and template are kept, every
      field no assignment names keeps its value, and a named field takes its last
      assigned value. */
  lemma UpdateChangesOnlyAssigned(p: Project, assignments: seq<Assignment>, f: Field)
    requires Commit(p, AssignAll(EditableOf(p), assignments)).Ok?
    ensures var q := Commit(p, AssignAll(EditableOf(p), assignments)).value;
            && q.id == p.id && q.templateType == p.templateType
            && ((forall i :: 0 <= i < |assignments| ==> assignments[i].field != f)
                  ==> EditableOf(q).Get(f) == EditableOf(p).Get(f))
  {
    if forall i :: 0 <= i < |assignments| ==> assignments[i].field != f {
      UnassignedFieldKept(EditableOf(p), assignments, f);
    }
  }
}
