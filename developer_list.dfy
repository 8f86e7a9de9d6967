/** The developer list view: its filter state, the per-developer project counts,
    and `filteredDevelopers`. */
module DeveloperList {
  import opened Wrappers
  import opened Strings
  import opened Seqs
  import opened Entities
  import opened Criteria
  import opened RelationshipCounts
  import opened DeveloperFiltersComponent

  /** The callback of `developers.filter(...)`: each criterion rejects early, in source order.
      A developer is kept iff it meets every criterion: name, experience, status and project count. */
  predicate KeepDeveloper(filters: DeveloperFilters, projectCounts: map<int, nat>, dev: Developer)
    ensures KeepDeveloper(filters, projectCounts, dev) <==>
      && NameMatches(filters.searchName, dev.nombre)
      && InRange(dev.aniosExperiencia, filters.experienceMin, filters.experienceMax)
      && StatusMatches(filters.status, dev.registroActivo)
      && InRange(CountFor(projectCounts, dev.codigoDesarrollador), filters.projectsMin, filters.projectsMax)
  {
    var projectCount := CountFor(projectCounts, dev.codigoDesarrollador);
    if filters.searchName != "" && !Contains(ToLower(dev.nombre), ToLower(filters.searchName)) then false
    else if filters.experienceMin.Some? && dev.aniosExperiencia < filters.experienceMin.value then false
    else if filters.experienceMax.Some? && dev.aniosExperiencia > filters.experienceMax.value then false
    else if filters.status == Active && !dev.registroActivo then false
    else if filters.status == Inactive && dev.registroActivo then false
    else if filters.projectsMin.Some? && projectCount < filters.projectsMin.value then false
    else if filters.projectsMax.Some? && projectCount > filters.projectsMax.value then false
    else true
  }

  /** `filteredDevelopers`: exactly the developers that pass, in their order and multiplicity. */
  function FilteredDevelopers(developers: seq<Developer>, filters: DeveloperFilters, projectCounts: map<int, nat>)
    : (r: seq<Developer>)
    ensures forall d :: d in r <==> d in developers && KeepDeveloper(filters, projectCounts, d)
    ensures IsSubsequence(r, developers)
    ensures forall d :: multiset(r)[d] == if KeepDeveloper(filters, projectCounts, d) then multiset(developers)[d] else 0
  {
    var keep := (d: Developer) => KeepDeveloper(filters, projectCounts, d);
    FilterIsSubsequence(developers, keep);
    FilterMultiplicity(developers, keep);
    Filter(developers, keep)
  }

  /** Under the cleared filters every developer is shown, whatever the counts. */
  lemma ClearedFiltersKeepEveryone(developers: seq<Developer>, projectCounts: map<int, nat>)
    ensures FilteredDevelopers(developers, ClearedFilters(), projectCounts) == developers
  {
    FilterKeepsAll(developers, (d: Developer) => KeepDeveloper(ClearedFilters(), projectCounts, d));
  }

  /** Of two developers named "Ana", a search for "ana" restricted to active ones keeps the active one only. */
  lemma AndCompositionExample(ana3: Developer, ana10: Developer)
    requires ana3.nombre == "Ana" && ana3.aniosExperiencia == 3 && ana3.registroActivo
    requires ana10.nombre == "Ana" && ana10.aniosExperiencia == 10 && !ana10.registroActivo
    ensures FilteredDevelopers([ana3, ana10], ClearedFilters().(searchName := "ana", status := Active), map[]) == [ana3]
  {
    var f := ClearedFilters().(searchName := "ana", status := Active);
    assert ToLower("Ana") == "ana";
    assert WindowAt("ana", "ana", 0);
    assert KeepDeveloper(f, map[], ana3);
    assert !KeepDeveloper(f, map[], ana10);
    var r := FilteredDevelopers([ana3, ana10], f, map[]);
    assert multiset(r) == multiset([ana3]);
    assert |r| == |multiset(r)| == 1;
    assert r[0] in r;
  }

  /** One settled `getAllProjectsByDeveloper` per developer, in list order. */
  function CountEntries(developers: seq<Developer>, results: seq<Outcome<seq<Project>>>): (entries: seq<CountEntry>)
    requires |results| == |developers|
    ensures |entries| == |developers|
    ensures forall i :: 0 <= i < |developers| ==>
      entries[i].id == developers[i].codigoDesarrollador && (results[i].Failure? ==> entries[i].count == 0)
  {
    seq(|developers|, i requires 0 <= i < |developers| =>
      CountEntry(developers[i].codigoDesarrollador, QueryCount(results[i])))
  }

  /** The map `loadProjectCounts` stores: keyed by exactly the developer ids. */
  function ProjectCounts(developers: seq<Developer>, results: seq<Outcome<seq<Project>>>): (counts: map<int, nat>)
    requires |results| == |developers|
    ensures counts.Keys == set d | d in developers :: d.codigoDesarrollador
  {
    var entries := CountEntries(developers, results);
    assert EntryIds(entries) == set d | d in developers :: d.codigoDesarrollador by {
      forall x | x in EntryIds(entries) ensures exists d :: d in developers && d.codigoDesarrollador == x {
        var e :| e in entries && e.id == x;
        var i :| 0 <= i < |entries| && entries[i] == e;
        assert developers[i] in developers;
      }
      forall d | d in developers ensures d.codigoDesarrollador in EntryIds(entries) {
        var i :| 0 <= i < |developers| && developers[i] == d;
        assert entries[i] in entries;
      }
    }
    CountsMap(entries)
  }

  /** A developer's count is its query's result length, or 0 if its query failed; when an id
      repeats, the last developer with it wins. One failure leaves the other counts intact. */
  lemma ProjectCountOf(developers: seq<Developer>, results: seq<Outcome<seq<Project>>>, k: nat)
    requires |results| == |developers| && k < |developers|
    requires forall j :: k < j < |developers| ==> developers[j].codigoDesarrollador != developers[k].codigoDesarrollador
    ensures ProjectCounts(developers, results)[developers[k].codigoDesarrollador] == QueryCount(results[k])
    ensures results[k].Failure? ==> ProjectCounts(developers, results)[developers[k].codigoDesarrollador] == 0
  {
    CountsMapLastWins(CountEntries(developers, results), k);
  }

  /** The view's own state: the filters, the counts, and whether they are loading. */
  class DeveloperListState {
    var filters: DeveloperFilters
    var projectCounts: map<int, nat>
    var loadingCounts: bool

    constructor ()
      ensures filters == ClearedFilters() && projectCounts == map[] && !loadingCounts
    {
      filters := ClearedFilters();
      projectCounts := map[];
      loadingCounts := false;
    }

    /** What the view shows for the hook's current `developers`. */
    function Visible(developers: seq<Developer>): seq<Developer>
      reads this
    {
      FilteredDevelopers(developers, filters, projectCounts)
    }

    /** `clearFilters`. */
    method ClearFilters()
      modifies this
      ensures filters == ClearedFilters()
      ensures projectCounts == old(projectCounts) && loadingCounts == old(loadingCounts)
      ensures forall developers :: Visible(developers) == developers
    {
      filters := ClearedFilters();
      forall developers ensures Visible(developers) == developers {
        ClearedFiltersKeepEveryone(developers, projectCounts);
      }
    }

    /** The filter panel's `updateFilter`, delivered through `onFiltersChange = setFilters`. */
    method EditFilter(e: FilterEdit)
      modifies this
      ensures filters == UpdateFilter(old(filters), e)
      ensures projectCounts == old(projectCounts) && loadingCounts == old(loadingCounts)
    {
      filters := UpdateFilter(filters, e);
    }

    /** `loadProjectCounts` given each developer's settled query; an empty list returns at once. */
    method LoadProjectCounts(developers: seq<Developer>, results: seq<Outcome<seq<Project>>>)
      requires |results| == |developers|
      modifies this
      ensures developers == [] ==> projectCounts == old(projectCounts) && loadingCounts == old(loadingCounts)
      ensures developers != [] ==> projectCounts == ProjectCounts(developers, results) && !loadingCounts
      ensures filters == old(filters)
    {
      if |developers| == 0 {
        return;
      }
      loadingCounts := true;
      var counts := CountEntries(developers, results);
      var countsMap := BuildCountsMap(counts);
      projectCounts := countsMap;
      loadingCounts := false;
    }
  }
}
