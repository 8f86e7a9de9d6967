/** The developer filter panel: the filter record, `updateFilter` with its
    min/max clearing rule, and `hasActiveFilters`. */
module DeveloperFiltersComponent {
  import opened Wrappers
  import opened Criteria

  datatype DeveloperFilters = DeveloperFilters(
    searchName: string,
    experienceMin: Option<int>,
    experienceMax: Option<int>,
    status: StatusFilter,
    projectsMin: Option<int>,
    projectsMax: Option<int>)

  /** A call `updateFilter(key, value)`: the constructor is the key, its argument the value. */
  datatype FilterEdit =
    | SearchName(text: string)
    | ExperienceMin(bound: Option<int>)
    | ExperienceMax(bound: Option<int>)
    | Status(status: StatusFilter)
    | ProjectsMin(bound: Option<int>)
    | ProjectsMax(bound: Option<int>)

  /** The filters `clearFilters` installs, which are also the list's initial filters. */
  function ClearedFilters(): DeveloperFilters
  {
    DeveloperFilters("", None, None, All, None, None)
  }

  /** `{ ...filters, [key]: value }`. */
  function Spread(f: DeveloperFilters, e: FilterEdit): DeveloperFilters
  {
    match e
    case SearchName(t) => f.(searchName := t)
    case ExperienceMin(b) => f.(experienceMin := b)
    case ExperienceMax(b) => f.(experienceMax := b)
    case Status(s) => f.(status := s)
    case ProjectsMin(b) => f.(projectsMin := b)
    case ProjectsMax(b) => f.(projectsMax := b)
  }

  /** `updateFilter`: the spread copy, then a lower-bound edit that lands above the
      upper bound of its pair clears that upper bound. */
  function UpdateFilter(f: DeveloperFilters, e: FilterEdit): (r: DeveloperFilters)
    // every field other than the two upper bounds is exactly the spread copy
    ensures r.(experienceMax := Spread(f, e).experienceMax, projectsMax := Spread(f, e).projectsMax) == Spread(f, e)
    // an upper bound differs from the spread copy only by being cleared by its own lower-bound edit
    ensures r.experienceMax == Spread(f, e).experienceMax || (e.ExperienceMin? && r.experienceMax == None)
    ensures r.projectsMax == Spread(f, e).projectsMax || (e.ProjectsMin? && r.projectsMax == None)
    // the clearing happens exactly when the new lower bound exceeds the present upper bound
    ensures e.ExperienceMin? ==> (r.experienceMax != f.experienceMax <==> Inverted(e.bound, f.experienceMax))
    ensures e.ProjectsMin? ==> (r.projectsMax != f.projectsMax <==> Inverted(e.bound, f.projectsMax))
    // so after a lower-bound edit its pair is never inverted
    ensures e.ExperienceMin? ==> Ordered(r.experienceMin, r.experienceMax)
    ensures e.ProjectsMin? ==> Ordered(r.projectsMin, r.projectsMax)
  {
    var next := Spread(f, e);
    match e
    case ExperienceMin(v) =>
      if next.experienceMax.Some? && v.Some? && v.value > next.experienceMax.value
      then next.(experienceMax := None) else next
    case ProjectsMin(v) =>
      if next.projectsMax.Some? && v.Some? && v.value > next.projectsMax.value
      then next.(projectsMax := None) else next
    case _ => next
  }

  /** `hasActiveFilters`: false exactly for the cleared filters. */
  function HasActiveFilters(f: DeveloperFilters): (active: bool)
    ensures !active <==> f == ClearedFilters()
  {
    f.searchName != "" || f.experienceMin.Some? || f.experienceMax.Some?
    || f.status != All || f.projectsMin.Some? || f.projectsMax.Some?
  }

  /** Editing an upper bound never adjusts the lower bound, so an inverted range is reachable. */
  lemma UpperBoundEditCanInvert(f: DeveloperFilters, m: int)
    requires f.experienceMin == Some(m)
    ensures UpdateFilter(f, ExperienceMax(Some(m - 1))).experienceMin == Some(m)
    ensures Inverted(UpdateFilter(f, ExperienceMax(Some(m - 1))).experienceMin,
                     UpdateFilter(f, ExperienceMax(Some(m - 1))).experienceMax)
  {
  }

  /** Repeating an edit changes nothing more. */
  lemma UpdateFilterIdempotent(f: DeveloperFilters, e: FilterEdit)
    ensures UpdateFilter(UpdateFilter(f, e), e) == UpdateFilter(f, e)
  {
  }

  /** The example of raising the minimum above the maximum: {min 3, max 5}, set min 7, gives {min 7, max none}. */
  lemma RaisingMinClearsMax(f: DeveloperFilters)
    requires f.experienceMin == Some(3) && f.experienceMax == Some(5)
    ensures UpdateFilter(f, ExperienceMin(Some(7))) == f.(experienceMin := Some(7), experienceMax := None)
  {
  }
}
