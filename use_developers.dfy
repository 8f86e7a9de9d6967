/** `useDevelopers`: the developer collection with its loading flag and error text,
    and every operation that changes them. Each service call is an `Outcome`
    parameter, each refetch a second one. */
module UseDevelopers {
  import opened Wrappers
  import opened Entities
  import opened HookState

  const FetchError := "Error fetching developers"
  const AssignError := "Error asignando desarrollador al proyecto"
  const UnassignError := "Error desasignando desarrollador del proyecto"
  const ReactivateError := "Error reactivando desarrollador"
  const ProjectsError := "Error fetching projects for developer"
  const CreateError := "Error creando desarrollador"
  const UpdateError := "Error editando desarrollador"
  const DeleteError := "Error deshabilitando desarrollador"

  /** One hook operation together with the outcomes of the service calls it awaits. */
  datatype DeveloperOp =
    | Fetch(list: Outcome<seq<Developer>>)
    | Assign(assignment: Outcome<Developer>, refetch: Outcome<seq<Developer>>)
    | Unassign(unassignment: Outcome<()>, refetch: Outcome<seq<Developer>>)
    | Reactivate(reactivation: Outcome<Developer>, refetch: Outcome<seq<Developer>>)
    | ProjectsOf(projects: Outcome<seq<Project>>)
    | Create(created: Outcome<Developer>)
    | Update(updated: Outcome<Developer>)
    | Delete(deletion: Outcome<()>, refetch: Outcome<seq<Developer>>)

  /** The state after one operation. Create AND update append the returned developer;
      assign, unassign, reactivate and delete refetch; a failed call records its error.
      A failed call keeps the list, and only a failed fetch ends loading; after a successful
      mutation that refetches, the list is the refetch's result (or the old list if the
      refetch failed), loading has ended and the error is cleared iff the refetch succeeded;
      a create or update appends what it returned, if anything. */
  function Step(s: HookState<Developer>, op: DeveloperOp): (r: HookState<Developer>)
    ensures CallFails(op) ==> r.items == s.items && r.error.Some?
    ensures CallFails(op) && !op.Fetch? ==> r.loading == s.loading
    ensures RefetchingSuccess(op) ==>
      && r.items == (if op.refetch.Success? then op.refetch.value else s.items)
      && !r.loading
      && (r.error.None? <==> op.refetch.Success?)
    ensures op.Create? || op.Update? ==> r.items == s.items + ReturnedBy(op)
    ensures op.ProjectsOf? && op.projects.Success? ==> r == s
  {
    match op
    case Fetch(list) => AfterFetch(s, list, FetchError)
    case Assign(res, refetch) =>
      if res.Success? then AfterFetch(s, refetch, FetchError) else AfterFailure(s, res.message, AssignError)
    case Unassign(res, refetch) =>
      if res.Success? then AfterFetch(s, refetch, FetchError) else AfterFailure(s, res.message, UnassignError)
    case Reactivate(res, refetch) =>
      if res.Success? then AfterFetch(s, refetch, FetchError) else AfterFailure(s, res.message, ReactivateError)
    case ProjectsOf(res) =>
      if res.Success? then s else AfterFailure(s, res.message, ProjectsError)
    case Create(res) =>
      if res.Success? then AfterAppend(s, res.value) else AfterFailure(s, res.message, CreateError)
    case Update(res) =>
      if res.Success? then AfterAppend(s, res.value) else AfterFailure(s, res.message, UpdateError)
    case Delete(res, refetch) =>
      if res.Success? then AfterFetch(s, refetch, FetchError) else AfterFailure(s, res.message, DeleteError)
  }

  /** The state after a sequence of operations, applied in order. */
  function Run(s: HookState<Developer>, ops: seq<DeveloperOp>): HookState<Developer>
    decreases |ops|
  {
    if ops == [] then s else Run(Step(s, ops[0]), ops[1..])
  }

  /** The operation ends in a fetch that succeeds. */
  predicate ClearsError(op: DeveloperOp)
  {
    match op
    case Fetch(list) => list.Success?
    case Assign(res, refetch) => res.Success? && refetch.Success?
    case Unassign(res, refetch) => res.Success? && refetch.Success?
    case Reactivate(res, refetch) => res.Success? && refetch.Success?
    case Delete(res, refetch) => res.Success? && refetch.Success?
    case _ => false
  }

  /** Only a fetch that succeeds clears a recorded error; create and update never do. */
  lemma {:induction false} ErrorClearedOnlyByFetch(s: HookState<Developer>, ops: seq<DeveloperOp>)
    requires s.error.Some?
    requires forall i :: 0 <= i < |ops| ==> !ClearsError(ops[i])
    ensures Run(s, ops).error.Some?
    decreases |ops|
  {
    if ops != [] {
      assert !ClearsError(ops[0]);
      ErrorClearedOnlyByFetch(Step(s, ops[0]), ops[1..]);
    }
  }

  /** The developer a create or update returned, if it succeeded. */
  function ReturnedBy(op: DeveloperOp): seq<Developer>
  {
    match op
    case Create(Success(d)) => [d]
    case Update(Success(d)) => [d]
    case _ => []
  }

  /** The developers successfully returned by a run of creates and updates, in order. */
  function Returned(ops: seq<DeveloperOp>): seq<Developer>
    decreases |ops|
  {
    if ops == [] then [] else ReturnedBy(ops[0]) + Returned(ops[1..])
  }

  /** Creates and updates only ever append: the earlier list stays a prefix, in order. */
  lemma {:induction false} LocalEditsOnlyAppend(s: HookState<Developer>, ops: seq<DeveloperOp>)
    requires forall i :: 0 <= i < |ops| ==> ops[i].Create? || ops[i].Update?
    ensures Run(s, ops).items == s.items + Returned(ops)
    decreases |ops|
  {
    if ops != [] {
      var next := Step(s, ops[0]);
      LocalEditsOnlyAppend(next, ops[1..]);
      calc {
        Run(s, ops).items;
        Run(next, ops[1..]).items;
        next.items + Returned(ops[1..]);
        (s.items + ReturnedBy(ops[0])) + Returned(ops[1..]);
        s.items + (ReturnedBy(ops[0]) + Returned(ops[1..]));
        s.items + Returned(ops);
      }
    }
  }

  /** The number of entries carrying `id`. */
  function CountWithId(developers: seq<Developer>, id: int): nat
  {
    if developers == [] then 0
    else (if developers[0].codigoDesarrollador == id then 1 else 0) + CountWithId(developers[1..], id)
  }

  lemma {:induction false} CountWithIdAppend(developers: seq<Developer>, d: Developer, id: int)
    ensures CountWithId(developers + [d], id) == CountWithId(developers, id) + (if d.codigoDesarrollador == id then 1 else 0)
  {
    if developers != [] {
      assert (developers + [d])[1..] == developers[1..] + [d];
      CountWithIdAppend(developers[1..], d, id);
    }
  }

  /** A successful update does not replace the entry with that id: the stale copy stays
      and one more entry with the id is appended at the end. */
  lemma UpdateKeepsStaleCopy(s: HookState<Developer>, updated: Developer)
    ensures Step(s, Update(Success(updated))).items == s.items + [updated]
    ensures forall d :: d in s.items ==> d in Step(s, Update(Success(updated))).items
    ensures CountWithId(Step(s, Update(Success(updated))).items, updated.codigoDesarrollador)
         == CountWithId(s.items, updated.codigoDesarrollador) + 1
  {
    CountWithIdAppend(s.items, updated, updated.codigoDesarrollador);
  }

  /** The operation's own service call failed (the refetch, if any, never ran). */
  predicate CallFails(op: DeveloperOp)
  {
    match op
    case Fetch(list) => list.Failure?
    case Assign(res, _) => res.Failure?
    case Unassign(res, _) => res.Failure?
    case Reactivate(res, _) => res.Failure?
    case ProjectsOf(res) => res.Failure?
    case Create(res) => res.Failure?
    case Update(res) => res.Failure?
    case Delete(res, _) => res.Failure?
  }

  /** The mutation's own service call succeeded and the list is then refetched. */
  predicate RefetchingSuccess(op: DeveloperOp)
  {
    match op
    case Assign(res, _) => res.Success?
    case Unassign(res, _) => res.Success?
    case Reactivate(res, _) => res.Success?
    case Delete(res, _) => res.Success?
    case _ => false
  }

  /** The hook instance. */
  class DeveloperStore {
    var developers: seq<Developer>
    var loading: bool
    var error: Option<string>

    function State(): HookState<Developer>
      reads this
    {
      HookState(developers, loading, error)
    }

    /** `useState([])`, `useState(true)`, `useState(null)`; the mount effect is a later `FetchDevelopers`. */
    constructor ()
      ensures State() == Initial()
    {
      developers := [];
      loading := true;
      error := None;
    }

    method FetchDevelopers(list: Outcome<seq<Developer>>)
      modifies this
      ensures State() == Step(old(State()), Fetch(list))
    {
      loading := true;
      match list {
        case Success(data) =>
          developers := data;
          error := None;
        case Failure(m) =>
          error := Some(ErrorText(m, FetchError));
      }
      loading := false;
    }

    /** Returns the service's response, or rethrows its failure. */
    method AssignDeveloperToProject(developerId: int, projectId: int, assignment: Outcome<Developer>,
                                    refetch: Outcome<seq<Developer>>) returns (r: Outcome<Developer>)
      modifies this
      ensures r == assignment
      ensures State() == Step(old(State()), Assign(assignment, refetch))
    {
      match assignment {
        case Success(_) =>
          FetchDevelopers(refetch);
        case Failure(m) =>
          error := Some(ErrorText(m, AssignError));
      }
      r := assignment;
    }

    method UnassignDeveloperFromProject(developerId: int, projectId: int, unassignment: Outcome<()>,
                                        refetch: Outcome<seq<Developer>>) returns (r: Outcome<()>)
      modifies this
      ensures r == unassignment
      ensures State() == Step(old(State()), Unassign(unassignment, refetch))
    {
      match unassignment {
        case Success(_) =>
          FetchDevelopers(refetch);
        case Failure(m) =>
          error := Some(ErrorText(m, UnassignError));
      }
      r := unassignment;
    }

    method ReactivateDeveloper(id: int, reactivation: Outcome<Developer>, refetch: Outcome<seq<Developer>>)
      returns (r: Outcome<Developer>)
      modifies this
      ensures r == reactivation
      ensures State() == Step(old(State()), Reactivate(reactivation, refetch))
    {
      match reactivation {
        case Success(_) =>
          FetchDevelopers(refetch);
        case Failure(m) =>
          error := Some(ErrorText(m, ReactivateError));
      }
      r := reactivation;
    }

    /** Passes the projects through; only a failure touches the state, through `error`. */
    method GetAllProjectsByDeveloper(developerId: int, projects: Outcome<seq<Project>>)
      returns (r: Outcome<seq<Project>>)
      modifies this
      ensures r == projects
      ensures State() == Step(old(State()), ProjectsOf(projects))
    {
      if projects.Failure? {
        error := Some(ErrorText(projects.message, ProjectsError));
      }
      r := projects;
    }

    method CreateDeveloper(created: Outcome<Developer>) returns (r: Outcome<Developer>)
      modifies this
      ensures r == created
      ensures State() == Step(old(State()), Create(created))
    {
      match created {
        case Success(d) =>
          developers := developers + [d];
        case Failure(m) =>
          error := Some(ErrorText(m, CreateError));
      }
      r := created;
    }

    /** The id is sent to the service only; locally the response is appended. */
    method UpdateDeveloper(id: int, updated: Outcome<Developer>) returns (r: Outcome<Developer>)
      modifies this
      ensures r == updated
      ensures State() == Step(old(State()), Update(updated))
    {
      match updated {
        case Success(d) =>
          developers := developers + [d];
        case Failure(m) =>
          error := Some(ErrorText(m, UpdateError));
      }
      r := updated;
    }

    method DeleteDeveloper(id: int, deletion: Outcome<()>, refetch: Outcome<seq<Developer>>)
      returns (r: Outcome<()>)
      modifies this
      ensures r == deletion
      ensures State() == Step(old(State()), Delete(deletion, refetch))
    {
      match deletion {
        case Success(_) =>
          FetchDevelopers(refetch);
        case Failure(m) =>
          error := Some(ErrorText(m, DeleteError));
      }
      r := deletion;
    }
  }
}
