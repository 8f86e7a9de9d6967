/** `useProjects`: the project collection with its loading flag and error text,
    and every operation that changes them. Unlike `useDevelopers`, update, assign
    and remove patch the list in place by id and never refetch. */
module UseProjects {
  import opened Wrappers
  import opened Entities
  import opened HookState

  const FetchError := "Error fetching projects"
  const CreateError := "Error creando proyecto"
  const UpdateError := "Error editando proyecto"
  const ReactivateError := "Error reactivando proyecto"
  const DeleteError := "Error deshabilitando proyecto"
  const AssignError := "Error assigning developer to project"
  const RemoveError := "Error removing developer from project"

  /** `prev.map(p => p.codigoProyecto === id ? updated : p)`. */
  function ReplaceById(projects: seq<Project>, id: int, updated: Project): (r: seq<Project>)
    ensures |r| == |projects|
  {
    if projects == [] then []
    else [if projects[0].codigoProyecto == id then updated else projects[0]] + ReplaceById(projects[1..], id, updated)
  }

  /** Every entry with the id becomes the returned project; every other entry is untouched. */
  lemma {:induction false} ReplaceByIdAt(projects: seq<Project>, id: int, updated: Project, i: nat)
    requires i < |projects|
    ensures ReplaceById(projects, id, updated)[i] == if projects[i].codigoProyecto == id then updated else projects[i]
  {
    if i > 0 {
      ReplaceByIdAt(projects[1..], id, updated, i - 1);
    }
  }

  /** `after` is `before` with every entry carrying `id` replaced by `p`, every other entry kept. */
  predicate PatchedById(before: seq<Project>, after: seq<Project>, id: int, p: Project)
  {
    && |after| == |before|
    && forall i :: 0 <= i < |before| ==> after[i] == if before[i].codigoProyecto == id then p else before[i]
  }

  /** The in-place `map` patches the whole list: every index at once. */
  lemma ReplaceByIdPatches(projects: seq<Project>, id: int, updated: Project)
    ensures PatchedById(projects, ReplaceById(projects, id, updated), id, updated)
  {
    forall i | 0 <= i < |projects|
      ensures ReplaceById(projects, id, updated)[i] == if projects[i].codigoProyecto == id then updated else projects[i]
    {
      ReplaceByIdAt(projects, id, updated, i);
    }
  }

  /** With no entry carrying the id, the list is unchanged. */
  lemma {:induction false} ReplaceByIdNoMatch(projects: seq<Project>, id: int, updated: Project)
    requires forall i :: 0 <= i < |projects| ==> projects[i].codigoProyecto != id
    ensures ReplaceById(projects, id, updated) == projects
  {
    if projects != [] {
      ReplaceByIdNoMatch(projects[1..], id, updated);
    }
  }

  /** The ids of the list, in order. */
  function Ids(projects: seq<Project>): seq<int>
  {
    if projects == [] then [] else [projects[0].codigoProyecto] + Ids(projects[1..])
  }

  /** When the returned project carries the id it replaces, the ids of the list, and so its
      order and length, are unchanged. */
  lemma {:induction false} ReplaceByIdKeepsIds(projects: seq<Project>, id: int, updated: Project)
    requires updated.codigoProyecto == id
    ensures Ids(ReplaceById(projects, id, updated)) == Ids(projects)
  {
    if projects != [] {
      ReplaceByIdKeepsIds(projects[1..], id, updated);
    }
  }

  /** One hook operation together with the outcomes of the service calls it awaits. */
  datatype ProjectOp =
    | Fetch(list: Outcome<seq<Project>>)
    | Create(created: Outcome<Project>)
    | Update(id: int, updated: Outcome<Project>)
    | Reactivate(reactivation: Outcome<Project>, refetch: Outcome<seq<Project>>)
    | Delete(deletion: Outcome<()>, refetch: Outcome<seq<Project>>)
    | AssignDeveloper(projectId: int, updated: Outcome<Project>)
    | RemoveDeveloper(projectId: int, updated: Outcome<Project>)

  /** The state after one operation. A failed call keeps the list and records an error,
      and only a failed fetch ends loading; after a successful reactivate or delete the list
      is the refetch's result (or the old list if the refetch failed) and loading has ended;
      a create appends; a successful update, assign or remove patches the list in place,
      every entry with the targeted id becoming the response and every other entry kept,
      along with the length, the loading flag and the error. */
  function Step(s: HookState<Project>, op: ProjectOp): (r: HookState<Project>)
    ensures CallFails(op) ==> r.items == s.items && r.error.Some?
    ensures CallFails(op) && !op.Fetch? ==> r.loading == s.loading
    ensures (op.Reactivate? && op.reactivation.Success?) || (op.Delete? && op.deletion.Success?) ==>
      && r.items == (if op.refetch.Success? then op.refetch.value else s.items)
      && !r.loading
      && (r.error.None? <==> op.refetch.Success?)
    ensures op.Create? && op.created.Success? ==> r.items == s.items + [op.created.value]
    ensures (op.Update? || op.AssignDeveloper? || op.RemoveDeveloper?) && op.updated.Success? ==>
      |r.items| == |s.items| && r.loading == s.loading && r.error == s.error
    ensures op.Update? && op.updated.Success? ==> PatchedById(s.items, r.items, op.id, op.updated.value)
    ensures (op.AssignDeveloper? || op.RemoveDeveloper?) && op.updated.Success? ==>
      PatchedById(s.items, r.items, op.projectId, op.updated.value)
  {
    match op
    case Fetch(list) => AfterFetch(s, list, FetchError)
    case Create(res) =>
      if res.Success? then AfterAppend(s, res.value) else AfterFailure(s, res.message, CreateError)
    case Update(id, res) =>
      if res.Success? then
        ReplaceByIdPatches(s.items, id, res.value);
        s.(items := ReplaceById(s.items, id, res.value))
      else AfterFailure(s, res.message, UpdateError)
    case Reactivate(res, refetch) =>
      if res.Success? then AfterFetch(s, refetch, FetchError) else AfterFailure(s, res.message, ReactivateError)
    case Delete(res, refetch) =>
      if res.Success? then AfterFetch(s, refetch, FetchError) else AfterFailure(s, res.message, DeleteError)
    case AssignDeveloper(projectId, res) =>
      if res.Success? then
        ReplaceByIdPatches(s.items, projectId, res.value);
        s.(items := ReplaceById(s.items, projectId, res.value))
      else AfterFailure(s, res.message, AssignError)
    case RemoveDeveloper(projectId, res) =>
      if res.Success? then
        ReplaceByIdPatches(s.items, projectId, res.value);
        s.(items := ReplaceById(s.items, projectId, res.value))
      else AfterFailure(s, res.message, RemoveError)
  }

  function Run(s: HookState<Project>, ops: seq<ProjectOp>): HookState<Project>
    decreases |ops|
  {
    if ops == [] then s else Run(Step(s, ops[0]), ops[1..])
  }

  /** The operation ends in a fetch that succeeds. */
  predicate ClearsError(op: ProjectOp)
  {
    match op
    case Fetch(list) => list.Success?
    case Reactivate(res, refetch) => res.Success? && refetch.Success?
    case Delete(res, refetch) => res.Success? && refetch.Success?
    case _ => false
  }

  /** Only a fetch that succeeds clears a recorded error. */
  lemma {:induction false} ErrorClearedOnlyByFetch(s: HookState<Project>, ops: seq<ProjectOp>)
    requires s.error.Some?
    requires forall i :: 0 <= i < |ops| ==> !ClearsError(ops[i])
    ensures Run(s, ops).error.Some?
    decreases |ops|
  {
    if ops != [] {
      assert !ClearsError(ops[0]);
      ErrorClearedOnlyByFetch(Step(s, ops[0]), ops[1..]);
    }
  }

  /** A local patch whose response, if any, carries the id it targets. */
  predicate IdPreservingPatch(op: ProjectOp)
  {
    match op
    case Update(id, res) => res.Success? ==> res.value.codigoProyecto == id
    case AssignDeveloper(id, res) => res.Success? ==> res.value.codigoProyecto == id
    case RemoveDeveloper(id, res) => res.Success? ==> res.value.codigoProyecto == id
    case _ => false
  }

  /** Any run of such patches keeps the list's ids, order and length, and never fetches. */
  lemma {:induction false} PatchesKeepIds(s: HookState<Project>, ops: seq<ProjectOp>)
    requires forall i :: 0 <= i < |ops| ==> IdPreservingPatch(ops[i])
    ensures Ids(Run(s, ops).items) == Ids(s.items)
    ensures Run(s, ops).loading == s.loading
    decreases |ops|
  {
    if ops != [] {
      assert IdPreservingPatch(ops[0]);
      match ops[0] {
        case Update(id, res) =>
          if res.Success? { ReplaceByIdKeepsIds(s.items, id, res.value); }
        case AssignDeveloper(id, res) =>
          if res.Success? { ReplaceByIdKeepsIds(s.items, id, res.value); }
        case RemoveDeveloper(id, res) =>
          if res.Success? { ReplaceByIdKeepsIds(s.items, id, res.value); }
      }
      PatchesKeepIds(Step(s, ops[0]), ops[1..]);
    }
  }

  /** The operation's own service call failed (the refetch, if any, never ran). */
  predicate CallFails(op: ProjectOp)
  {
    match op
    case Fetch(list) => list.Failure?
    case Create(res) => res.Failure?
    case Update(_, res) => res.Failure?
    case Reactivate(res, _) => res.Failure?
    case Delete(res, _) => res.Failure?
    case AssignDeveloper(_, res) => res.Failure?
    case RemoveDeveloper(_, res) => res.Failure?
  }

  /** The example of an update: [A, B] with A updated to A' gives [A', B]. */
  lemma UpdateReplacesInPlace(s: HookState<Project>, a: Project, b: Project, a2: Project)
    requires s.items == [a, b] && a.codigoProyecto != b.codigoProyecto && a2.codigoProyecto == a.codigoProyecto
    ensures Step(s, Update(a.codigoProyecto, Success(a2))).items == [a2, b]
  {
    ReplaceByIdAt(s.items, a.codigoProyecto, a2, 0);
    ReplaceByIdAt(s.items, a.codigoProyecto, a2, 1);
  }

  /** The hook instance. */
  class ProjectStore {
    var projects: seq<Project>
    var loading: bool
    var error: Option<string>

    function State(): HookState<Project>
      reads this
    {
      HookState(projects, loading, error)
    }

    /** `useState([])`, `useState(true)`, `useState(null)`; the mount effect is a later `FetchProjects`. */
    constructor ()
      ensures State() == Initial()
    {
      projects := [];
      loading := true;
      error := None;
    }

    method FetchProjects(list: Outcome<seq<Project>>)
      modifies this
      ensures State() == Step(old(State()), Fetch(list))
    {
      loading := true;
      match list {
        case Success(data) =>
          projects := data;
          error := None;
        case Failure(m) =>
          error := Some(ErrorText(m, FetchError));
      }
      loading := false;
    }

    method CreateProject(created: Outcome<Project>) returns (r: Outcome<Project>)
      modifies this
      ensures r == created
      ensures State() == Step(old(State()), Create(created))
    {
      match created {
        case Success(p) =>
          projects := projects + [p];
        case Failure(m) =>
          error := Some(ErrorText(m, CreateError));
      }
      r := created;
    }

    method UpdateProject(id: int, updated: Outcome<Project>) returns (r: Outcome<Project>)
      modifies this
      ensures r == updated
      ensures State() == Step(old(State()), Update(id, updated))
    {
      match updated {
        case Success(p) =>
          projects := ReplaceById(projects, id, p);
        case Failure(m) =>
          error := Some(ErrorText(m, UpdateError));
      }
      r := updated;
    }

    method ReactivateProject(id: int, reactivation: Outcome<Project>, refetch: Outcome<seq<Project>>)
      returns (r: Outcome<Project>)
      modifies this
      ensures r == reactivation
      ensures State() == Step(old(State()), Reactivate(reactivation, refetch))
    {
      match reactivation {
        case Success(_) =>
          FetchProjects(refetch);
        case Failure(m) =>
          error := Some(ErrorText(m, ReactivateError));
      }
      r := reactivation;
    }

    method DeleteProject(id: int, deletion: Outcome<()>, refetch: Outcome<seq<Project>>)
      returns (r: Outcome<()>)
      modifies this
      ensures r == deletion
      ensures State() == Step(old(State()), Delete(deletion, refetch))
    {
      match deletion {
        case Success(_) =>
          FetchProjects(refetch);
        case Failure(m) =>
          error := Some(ErrorText(m, DeleteError));
      }
      r := deletion;
    }

    method AssignDeveloperToProject(developerId: int, projectId: int, updated: Outcome<Project>)
      returns (r: Outcome<Project>)
      modifies this
      ensures r == updated
      ensures State() == Step(old(State()), AssignDeveloper(projectId, updated))
    {
      match updated {
        case Success(p) =>
          projects := ReplaceById(projects, projectId, p);
        case Failure(m) =>
          error := Some(ErrorText(m, AssignError));
      }
      r := updated;
    }

    method RemoveDeveloperFromProject(developerId: int, projectId: int, updated: Outcome<Project>)
      returns (r: Outcome<Project>)
      modifies this
      ensures r == updated
      ensures State() == Step(old(State()), RemoveDeveloper(projectId, updated))
    {
      match updated {
        case Success(p) =>
          projects := ReplaceById(projects, projectId, p);
        case Failure(m) =>
          error := Some(ErrorText(m, RemoveError));
      }
      r := updated;
    }
  }
}
