/** The project filter panel: the filter record, `updateFilter` with its
    date and developer-count clearing rules, and `hasActiveFilters`. */
module ProjectFiltersComponent {
  import opened Wrappers
  import opened Strings
  import opened Criteria

  /** Dates are the strings of the date inputs; "" means no bound. */
  datatype ProjectFilters = ProjectFilters(
    searchName: string,
    startDateFrom: string,
    startDateTo: string,
    endDateFrom: string,
    endDateTo: string,
    status: StatusFilter,
    developersMin: Option<int>,
    developersMax: Option<int>)

  /** A call `updateFilter(key, value)`. */
  datatype FilterEdit =
    | SearchName(text: string)
    | StartDateFrom(date: string)
    | StartDateTo(date: string)
    | EndDateFrom(date: string)
    | EndDateTo(date: string)
    | Status(status: StatusFilter)
    | DevelopersMin(bound: Option<int>)
    | DevelopersMax(bound: Option<int>)

  /** The filters `clearFilters` installs, which are also the list's initial filters. */
  function ClearedFilters(): ProjectFilters
  {
    ProjectFilters("", "", "", "", "", All, None, None)
  }

  /** `{ ...filters, [key]: value }`. */
  function Spread(f: ProjectFilters, e: FilterEdit): ProjectFilters
  {
    match e
    case SearchName(t) => f.(searchName := t)
    case StartDateFrom(d) => f.(startDateFrom := d)
    case StartDateTo(d) => f.(startDateTo := d)
    case EndDateFrom(d) => f.(endDateFrom := d)
    case EndDateTo(d) => f.(endDateTo := d)
    case Status(s) => f.(status := s)
    case DevelopersMin(b) => f.(developersMin := b)
    case DevelopersMax(b) => f.(developersMax := b)
  }

  /** An empty side, or `from <= to` in string order. */
  predicate DatesOrdered(from: string, to: string)
  {
    from == "" || to == "" || StrLessEq(from, to)
  }

  /** `updateFilter`: the spread copy, then each "From"/min edit that lands above the
      "To"/max of its own pair resets that "To" to "" or that max to null. */
  function UpdateFilter(f: ProjectFilters, e: FilterEdit): (r: ProjectFilters)
    // every field other than the three upper bounds is exactly the spread copy
    ensures r.(startDateTo := Spread(f, e).startDateTo, endDateTo := Spread(f, e).endDateTo,
               developersMax := Spread(f, e).developersMax) == Spread(f, e)
    // an upper bound differs from the spread copy only by being reset by its own lower-bound edit
    ensures r.startDateTo == Spread(f, e).startDateTo || (e.StartDateFrom? && r.startDateTo == "")
    ensures r.endDateTo == Spread(f, e).endDateTo || (e.EndDateFrom? && r.endDateTo == "")
    ensures r.developersMax == Spread(f, e).developersMax || (e.DevelopersMin? && r.developersMax == None)
    // the reset happens exactly when the new lower bound exceeds the present upper bound
    ensures e.StartDateFrom? ==> (r.startDateTo != f.startDateTo <==> DatesInverted(e.date, f.startDateTo))
    ensures e.EndDateFrom? ==> (r.endDateTo != f.endDateTo <==> DatesInverted(e.date, f.endDateTo))
    ensures e.DevelopersMin? ==> (r.developersMax != f.developersMax <==> Inverted(e.bound, f.developersMax))
    // so after a lower-bound edit its pair is ordered
    ensures e.StartDateFrom? ==> DatesOrdered(r.startDateFrom, r.startDateTo)
    ensures e.EndDateFrom? ==> DatesOrdered(r.endDateFrom, r.endDateTo)
    ensures e.DevelopersMin? ==> Ordered(r.developersMin, r.developersMax)
  {
    var next := Spread(f, e);
    match e
    case StartDateFrom(v) =>
      NotLessIsLessEq(next.startDateTo, v);
      if next.startDateTo != "" && v != "" && StrLess(next.startDateTo, v)
      then next.(startDateTo := "") else next
    case EndDateFrom(v) =>
      NotLessIsLessEq(next.endDateTo, v);
      if next.endDateTo != "" && v != "" && StrLess(next.endDateTo, v)
      then next.(endDateTo := "") else next
    case DevelopersMin(v) =>
      if next.developersMax.Some? && v.Some? && v.value > next.developersMax.value
      then next.(developersMax := None) else next
    case _ => next
  }

  /** `hasActiveFilters`: false exactly for the cleared filters. */
  function HasActiveFilters(f: ProjectFilters): (active: bool)
    ensures !active <==> f == ClearedFilters()
  {
    f.searchName != "" || f.startDateFrom != "" || f.startDateTo != ""
    || f.endDateFrom != "" || f.endDateTo != ""
    || f.status != All || f.developersMin.Some? || f.developersMax.Some?
  }

  /** Editing a "To" date never adjusts its "From", so an inverted date range is reachable. */
  lemma ToEditCanInvert(f: ProjectFilters, to: string)
    requires f.startDateFrom != "" && to != "" && StrLess(to, f.startDateFrom)
    ensures UpdateFilter(f, StartDateTo(to)).startDateFrom == f.startDateFrom
    ensures DatesInverted(UpdateFilter(f, StartDateTo(to)).startDateFrom, UpdateFilter(f, StartDateTo(to)).startDateTo)
  {
  }

  /** An empty "From" never resets its "To". */
  lemma EmptyFromKeepsTo(f: ProjectFilters)
    ensures UpdateFilter(f, StartDateFrom("")).startDateTo == f.startDateTo
    ensures UpdateFilter(f, EndDateFrom("")).endDateTo == f.endDateTo
  {
  }

  /** The start range and the end range are independent: a start edit leaves both end bounds, and vice versa. */
  lemma RangesIndependent(f: ProjectFilters, d: string)
    ensures UpdateFilter(f, StartDateFrom(d)).endDateFrom == f.endDateFrom
    ensures UpdateFilter(f, StartDateFrom(d)).endDateTo == f.endDateTo
    ensures UpdateFilter(f, EndDateFrom(d)).startDateFrom == f.startDateFrom
    ensures UpdateFilter(f, EndDateFrom(d)).startDateTo == f.startDateTo
  {
  }
}
