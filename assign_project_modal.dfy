/** The modal in which one developer's projects are assigned and unassigned:
    the membership test, the active-project list, the per-button action and busy
    flag, and the handlers that update the modal's state. */
module AssignProjectModal {
  import opened Wrappers
  import opened Seqs
  import opened Entities
  import opened HookState
  import opened UseDevelopers

  /** `isProjectAssigned`: `assignedProjects.some(a => a.codigoProyecto === projectId)`. */
  function IsProjectAssigned(assignedProjects: seq<Project>, projectId: int): (isAssigned: bool)
    ensures isAssigned <==> exists i :: 0 <= i < |assignedProjects| && assignedProjects[i].codigoProyecto == projectId
  {
    if assignedProjects == [] then false
    else assignedProjects[0].codigoProyecto == projectId || IsProjectAssigned(assignedProjects[1..], projectId)
  }

  /** `activeProjects`: the active projects, in their original order. */
  function ActiveProjects(projects: seq<Project>): (active: seq<Project>)
    ensures forall p :: p in active <==> p in projects && p.registroActivo
    ensures IsSubsequence(active, projects)
    ensures forall p :: multiset(active)[p] == if p.registroActivo then multiset(projects)[p] else 0
  {
    var isActive := (p: Project) => p.registroActivo;
    FilterIsSubsequence(projects, isActive);
    FilterMultiplicity(projects, isActive);
    Filter(projects, isActive)
  }

  datatype ButtonAction = AssignButton | UnassignButton

  /** The button's `onClick`: unassign an assigned project, assign any other. */
  function ActionFor(assignedProjects: seq<Project>, projectId: int): (action: ButtonAction)
    ensures action == UnassignButton <==> exists i :: 0 <= i < |assignedProjects| && assignedProjects[i].codigoProyecto == projectId
  {
    if IsProjectAssigned(assignedProjects, projectId) then UnassignButton else AssignButton
  }

  /** With no assigned projects (as after a failed load), every button offers to assign. */
  lemma NothingAssignedOffersAssign(projects: seq<Project>, p: Project)
    requires p in ActiveProjects(projects)
    ensures ActionFor([], p.codigoProyecto) == AssignButton
  {
  }

  /** What a handler did, in the order it did it. */
  datatype ModalStep =
    | AssignRequested(projectId: int)
    | UnassignRequested(projectId: int)
    | AssignedReloaded
    | SuccessNotified

  /** The modal for one developer; `hook` is the modal's own `useDevelopers` instance. */
  class AssignModal {
    const developer: Developer
    const hook: DeveloperStore
    var assignedProjects: seq<Project>
    var loadingAssigned: bool
    var assigning: Option<int>
    var unassigning: Option<int>

    constructor (developer: Developer, hook: DeveloperStore)
      ensures this.developer == developer && this.hook == hook
      ensures assignedProjects == [] && !loadingAssigned && assigning == None && unassigning == None
    {
      this.developer := developer;
      this.hook := hook;
      assignedProjects := [];
      loadingAssigned := false;
      assigning := None;
      unassigning := None;
    }

    /** `loadAssignedProjects`: the developer's projects, or none when the query fails. */
    method LoadAssignedProjects(projects: Outcome<seq<Project>>)
      modifies this, hook
      ensures assignedProjects == (if projects.Success? then projects.value else [])
      ensures !loadingAssigned
      ensures assigning == old(assigning) && unassigning == old(unassigning)
      ensures hook.State() == Step(old(hook.State()), ProjectsOf(projects))
    {
      loadingAssigned := true;
      var loaded := hook.GetAllProjectsByDeveloper(developer.codigoDesarrollador, projects);
      match loaded {
        case Success(list) =>
          assignedProjects := list;
        case Failure(_) =>
          assignedProjects := [];
      }
      loadingAssigned := false;
    }

    /** `handleAssign`: assign, reload the assigned list, then notify; the marker is reset either way. */
    method HandleAssign(projectId: int, assignment: Outcome<Developer>, refetch: Outcome<seq<Developer>>,
                        reload: Outcome<seq<Project>>) returns (steps: seq<ModalStep>)
      modifies this, hook
      ensures assigning == None && unassigning == old(unassigning)
      ensures assignment.Success? ==> steps == [AssignRequested(projectId), AssignedReloaded, SuccessNotified]
      ensures assignment.Failure? ==> steps == [AssignRequested(projectId)]
      ensures assignment.Success? ==> assignedProjects == (if reload.Success? then reload.value else []) && !loadingAssigned
      ensures assignment.Failure? ==> assignedProjects == old(assignedProjects) && loadingAssigned == old(loadingAssigned)
      ensures assignment.Success? ==> hook.State() == Step(Step(old(hook.State()), Assign(assignment, refetch)), ProjectsOf(reload))
      ensures assignment.Failure? ==> hook.State() == Step(old(hook.State()), Assign(assignment, refetch))
    {
      assigning := Some(projectId);
      steps := [AssignRequested(projectId)];
      var r := hook.AssignDeveloperToProject(developer.codigoDesarrollador, projectId, assignment, refetch);
      if r.Success? {
        LoadAssignedProjects(reload);
        steps := steps + [AssignedReloaded, SuccessNotified];
      }
      assigning := None;
    }

    /** `handleUnassign`: unassign, reload the assigned list, then notify; the marker is reset either way. */
    method HandleUnassign(projectId: int, unassignment: Outcome<()>, refetch: Outcome<seq<Developer>>,
                          reload: Outcome<seq<Project>>) returns (steps: seq<ModalStep>)
      modifies this, hook
      ensures unassigning == None && assigning == old(assigning)
      ensures unassignment.Success? ==> steps == [UnassignRequested(projectId), AssignedReloaded, SuccessNotified]
      ensures unassignment.Failure? ==> steps == [UnassignRequested(projectId)]
      ensures unassignment.Success? ==> assignedProjects == (if reload.Success? then reload.value else []) && !loadingAssigned
      ensures unassignment.Failure? ==> assignedProjects == old(assignedProjects) && loadingAssigned == old(loadingAssigned)
      ensures unassignment.Success? ==> hook.State() == Step(Step(old(hook.State()), Unassign(unassignment, refetch)), ProjectsOf(reload))
      ensures unassignment.Failure? ==> hook.State() == Step(old(hook.State()), Unassign(unassignment, refetch))
    {
      unassigning := Some(projectId);
      steps := [UnassignRequested(projectId)];
      var r := hook.UnassignDeveloperFromProject(developer.codigoDesarrollador, projectId, unassignment, refetch);
      if r.Success? {
        LoadAssignedProjects(reload);
        steps := steps + [AssignedReloaded, SuccessNotified];
      }
      unassigning := None;
    }

    /** The button for `projectId`: what it does, and whether it is disabled. */
    function Button(projectId: int): (button: (ButtonAction, bool))
      reads this
      ensures button.0 == UnassignButton <==> IsProjectAssigned(assignedProjects, projectId)
      ensures button.1 <==> assigning == Some(projectId) || unassigning == Some(projectId)
    {
      (ActionFor(assignedProjects, projectId), assigning == Some(projectId) || unassigning == Some(projectId))
    }
  }
}
