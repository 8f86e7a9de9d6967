/** The project list view: its filter state, the per-project developer counts,
    and `filteredProjects`. */
module ProjectList {
  import opened Wrappers
  import opened Strings
  import opened Seqs
  import opened Entities
  import opened Criteria
  import opened RelationshipCounts
  import opened ProjectFiltersComponent

  /** The callback of `projects.filter(...)`: each criterion rejects early, in source order;
      dates are compared with the string operators `<` and `>`.
      A project is kept iff it meets every criterion: name, both inclusive date ranges
      (lexicographic), status and developer count. */
  predicate KeepProject(filters: ProjectFilters, developerCounts: map<int, nat>, project: Project)
    ensures KeepProject(filters, developerCounts, project) <==>
      && NameMatches(filters.searchName, project.nombre)
      && InDateRange(project.fechaInicio, filters.startDateFrom, filters.startDateTo)
      && InDateRange(project.fechaTermino, filters.endDateFrom, filters.endDateTo)
      && StatusMatches(filters.status, project.registroActivo)
      && InRange(CountFor(developerCounts, project.codigoProyecto), filters.developersMin, filters.developersMax)
  {
    NotLessIsLessEq(project.fechaInicio, filters.startDateFrom);
    NotLessIsLessEq(filters.startDateTo, project.fechaInicio);
    NotLessIsLessEq(project.fechaTermino, filters.endDateFrom);
    NotLessIsLessEq(filters.endDateTo, project.fechaTermino);
    var developerCount := CountFor(developerCounts, project.codigoProyecto);
    if filters.searchName != "" && !Contains(ToLower(project.nombre), ToLower(filters.searchName)) then false
    else if filters.startDateFrom != "" && StrLess(project.fechaInicio, filters.startDateFrom) then false
    else if filters.startDateTo != "" && StrLess(filters.startDateTo, project.fechaInicio) then false
    else if filters.endDateFrom != "" && StrLess(project.fechaTermino, filters.endDateFrom) then false
    else if filters.endDateTo != "" && StrLess(filters.endDateTo, project.fechaTermino) then false
    else if filters.status == Active && !project.registroActivo then false
    else if filters.status == Inactive && project.registroActivo then false
    else if filters.developersMin.Some? && developerCount < filters.developersMin.value then false
    else if filters.developersMax.Some? && developerCount > filters.developersMax.value then false
    else true
  }

  /** `filteredProjects`: exactly the projects that pass, in their order and multiplicity. */
  function FilteredProjects(projects: seq<Project>, filters: ProjectFilters, developerCounts: map<int, nat>)
    : (r: seq<Project>)
    ensures forall p :: p in r <==> p in projects && KeepProject(filters, developerCounts, p)
    ensures IsSubsequence(r, projects)
    ensures forall p :: multiset(r)[p] == if KeepProject(filters, developerCounts, p) then multiset(projects)[p] else 0
  {
    var keep := (p: Project) => KeepProject(filters, developerCounts, p);
    FilterIsSubsequence(projects, keep);
    FilterMultiplicity(projects, keep);
    Filter(projects, keep)
  }

  /** Under the cleared filters every project is shown, whatever the counts. */
  lemma ClearedFiltersKeepEveryone(projects: seq<Project>, developerCounts: map<int, nat>)
    ensures FilteredProjects(projects, ClearedFilters(), developerCounts) == projects
  {
    FilterKeepsAll(projects, (p: Project) => KeepProject(ClearedFilters(), developerCounts, p));
  }

  /** A stored start `day + "T..."` sorts after the bare `day`, so a project starting on the
      "To" day itself is filtered out, while one starting on the "From" day is not excluded by it. */
  lemma ToDayIsExcluded(filters: ProjectFilters, developerCounts: map<int, nat>, project: Project, day: string, time: string)
    requires day != "" && time != ""
    requires project.fechaInicio == day + time
    ensures filters.startDateTo == day ==> !KeepProject(filters, developerCounts, project)
    ensures filters.startDateFrom == day ==> !StrLess(project.fechaInicio, filters.startDateFrom)
  {
    PrefixIsLess(day, time);
    StrLessTrichotomy(day, day + time);
  }

  /** The same holds for the end-date range. */
  lemma EndToDayIsExcluded(filters: ProjectFilters, developerCounts: map<int, nat>, project: Project, day: string, time: string)
    requires day != "" && time != ""
    requires project.fechaTermino == day + time && filters.endDateTo == day
    ensures !KeepProject(filters, developerCounts, project)
  {
    PrefixIsLess(day, time);
  }

  /** An inverted start range (from after to) hides every project. */
  lemma InvertedStartRangeHidesAll(projects: seq<Project>, filters: ProjectFilters, developerCounts: map<int, nat>)
    requires DatesInverted(filters.startDateFrom, filters.startDateTo)
    ensures FilteredProjects(projects, filters, developerCounts) == []
  {
    var r := FilteredProjects(projects, filters, developerCounts);
    if r != [] {
      var p := r[0];
      assert p in r;
      InvertedDateRangeAdmitsNothing(p.fechaInicio, filters.startDateFrom, filters.startDateTo);
    }
  }

  /** One settled `getDevelopersByProject` per project, in list order. */
  function CountEntries(projects: seq<Project>, results: seq<Outcome<seq<Developer>>>): (entries: seq<CountEntry>)
    requires |results| == |projects|
    ensures |entries| == |projects|
    ensures forall i :: 0 <= i < |projects| ==>
      entries[i].id == projects[i].codigoProyecto && (results[i].Failure? ==> entries[i].count == 0)
  {
    seq(|projects|, i requires 0 <= i < |projects| =>
      CountEntry(projects[i].codigoProyecto, QueryCount(results[i])))
  }

  /** The map `loadDeveloperCounts` stores: keyed by exactly the project ids. */
  function DeveloperCounts(projects: seq<Project>, results: seq<Outcome<seq<Developer>>>): (counts: map<int, nat>)
    requires |results| == |projects|
    ensures counts.Keys == set p | p in projects :: p.codigoProyecto
  {
    var entries := CountEntries(projects, results);
    assert EntryIds(entries) == set p | p in projects :: p.codigoProyecto by {
      forall x | x in EntryIds(entries) ensures exists p :: p in projects && p.codigoProyecto == x {
        var e :| e in entries && e.id == x;
        var i :| 0 <= i < |entries| && entries[i] == e;
        assert projects[i] in projects;
      }
      forall p | p in projects ensures p.codigoProyecto in EntryIds(entries) {
        var i :| 0 <= i < |projects| && projects[i] == p;
        assert entries[i] in entries;
      }
    }
    CountsMap(entries)
  }

  /** A project's count is its query's result length, or 0 if its query failed; when an id
      repeats, the last project with it wins. */
  lemma DeveloperCountOf(projects: seq<Project>, results: seq<Outcome<seq<Developer>>>, k: nat)
    requires |results| == |projects| && k < |projects|
    requires forall j :: k < j < |projects| ==> projects[j].codigoProyecto != projects[k].codigoProyecto
    ensures DeveloperCounts(projects, results)[projects[k].codigoProyecto] == QueryCount(results[k])
    ensures results[k].Failure? ==> DeveloperCounts(projects, results)[projects[k].codigoProyecto] == 0
  {
    CountsMapLastWins(CountEntries(projects, results), k);
  }

  /** The view's own state: the filters, the counts, and whether they are loading. */
  class ProjectListState {
    var filters: ProjectFilters
    var developerCounts: map<int, nat>
    var loadingCounts: bool

    constructor ()
      ensures filters == ClearedFilters() && developerCounts == map[] && !loadingCounts
    {
      filters := ClearedFilters();
      developerCounts := map[];
      loadingCounts := false;
    }

    /** What the view shows for the hook's current `projects`. */
    function Visible(projects: seq<Project>): seq<Project>
      reads this
    {
      FilteredProjects(projects, filters, developerCounts)
    }

    /** `clearFilters`. */
    method ClearFilters()
      modifies this
      ensures filters == ClearedFilters()
      ensures developerCounts == old(developerCounts) && loadingCounts == old(loadingCounts)
      ensures forall projects :: Visible(projects) == projects
    {
      filters := ClearedFilters();
      forall projects ensures Visible(projects) == projects {
        ClearedFiltersKeepEveryone(projects, developerCounts);
      }
    }

    /** The filter panel's `updateFilter`, delivered through `onFiltersChange = setFilters`. */
    method EditFilter(e: FilterEdit)
      modifies this
      ensures filters == UpdateFilter(old(filters), e)
      ensures developerCounts == old(developerCounts) && loadingCounts == old(loadingCounts)
    {
      filters := UpdateFilter(filters, e);
    }

    /** `loadDeveloperCounts` given each project's settled query; an empty list returns at once. */
    method LoadDeveloperCounts(projects: seq<Project>, results: seq<Outcome<seq<Developer>>>)
      requires |results| == |projects|
      modifies this
      ensures projects == [] ==> developerCounts == old(developerCounts) && loadingCounts == old(loadingCounts)
      ensures projects != [] ==> developerCounts == DeveloperCounts(projects, results) && !loadingCounts
      ensures filters == old(filters)
    {
      if |projects| == 0 {
        return;
      }
      loadingCounts := true;
      var counts := CountEntries(projects, results);
      var countsMap := BuildCountsMap(counts);
      developerCounts := countsMap;
      loadingCounts := false;
    }
  }
}
