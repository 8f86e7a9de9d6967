# RBU dashboard: client-side state and filtering, in Dafny

RBU is a React dashboard for developers (`Developer`: id `codigoDesarrollador`,
name, RUT, e-mail, hiring date, years of experience, active flag) and projects
(`Project`: id `codigoProyecto`, name, start and end dates, active flag). This
project models the dashboard's logic once the rendering and the HTTP layer are
set aside. It covers:

- the two list filters, `filteredDevelopers` and `filteredProjects`;
- the per-entity relationship counts those filters use;
- the filter panels' `updateFilter` rules and `hasActiveFilters`;
- the two entity hooks, `useDevelopers` and `useProjects`, with their `items / loading / error` state;
- the assign-project modal;
- the two form validation schemas;
- the developer form's input clamp, default values and submit dispatch;
- the layout's breadcrumbs.

Each source file is one module:

| module | source file | how it is modelled |
|---|---|---|
| `DeveloperList` | `src/components/developers/DeveloperList.tsx` | predicate + filter function, count fold, and a class for the view's state |
| `ProjectList` | `src/components/projects/ProjectList.tsx` | same as `DeveloperList` |
| `DeveloperFiltersComponent` | `src/components/developers/DeveloperFilters.tsx` | pure functions |
| `ProjectFiltersComponent` | `src/components/projects/ProjectFilters.tsx` | pure functions |
| `UseDevelopers` | `src/hooks/use-developers.ts` | class `DeveloperStore` |
| `UseProjects` | `src/hooks/use-project.ts` | class `ProjectStore` |
| `AssignProjectModal` | `src/components/developers/AssignProjectModal.tsx` | pure functions plus class `AssignModal` |
| `DeveloperSchema` | `src/components/developers/developer.schema.ts` | pure functions |
| `ProjectSchema` | `src/components/projects/project.schema.ts` | pure functions |
| `DeveloperForm` | `src/components/developers/DeveloperForm.tsx` | pure functions |
| `Layout` | `src/components/layouts/Layout.tsx` | pure functions |

Shared helper modules:

- `Wrappers`: `Option`, and `Outcome`, which is a service call's success value or failure message. It also holds the `err instanceof Error ? err.message : fallback` idiom.
- `Seqs`: an order-preserving filter and its lemmas.
- `Strings`: lower-casing of the ASCII and Latin-1 capitals, substring search, and JavaScript's lexicographic `<` on strings with its order lemmas.
- `Criteria`: the filter criteria stated declaratively.
- `RelationshipCounts`: the `reduce` that builds an id→count map.
- `HookState`: the state transitions the two hooks share.
- `Validation`: the issue lists the schemas report.

How each kind of code is modelled:

- **Service calls.** Each one is an `Outcome` parameter. An operation that refetches after a mutation takes the refetch's outcome as a second parameter.
- **Hook methods.** Each method of a hook class is proved against `Step`, a function on `HookState`. Lemmas about `Run`, which applies a sequence of operations, state what holds across operations.
- **The count fan-out.** Every per-entity query catches its own error, so the fan-out is a sequence of settled outcomes, one per entity, folded in list order.

## Model

| member | source | states |
|---|---|---|
| DeveloperList.KeepDeveloper | src/components/developers/DeveloperList.tsx:101-133 | the early-return filter callback keeps a developer iff its name matches, its experience is in the inclusive range, its status matches and its project count (0 when absent) is in the inclusive range |
| DeveloperList.FilteredDevelopers | src/components/developers/DeveloperList.tsx:101-133 | the result holds exactly the developers that pass, as an order-preserving subsequence, each with its original multiplicity |
| DeveloperList.ClearedFiltersKeepEveryone | src/components/developers/DeveloperList.tsx:89-98 | under the cleared filters every developer is shown, whatever the counts |
| DeveloperList.AndCompositionExample | src/components/developers/DeveloperList.tsx:101-133 | the criteria combine with AND: of two developers named "Ana", a search for "ana" limited to active ones keeps only the active one |
| DeveloperList.CountEntries | src/components/developers/DeveloperList.tsx:48-56 | one entry per developer, in order, carrying its id; a failed query gives count 0 without failing the batch |
| DeveloperList.ProjectCounts | src/components/developers/DeveloperList.tsx:58-63 | the map's keys are exactly the developer ids |
| DeveloperList.ProjectCountOf | src/components/developers/DeveloperList.tsx:48-63 | a developer's count is the length of its project list, or 0 when its query failed; the last developer with a repeated id wins |
| DeveloperList.DeveloperListState.constructor | src/components/developers/DeveloperList.tsx:39-40 | the view starts with the cleared filters, no counts and counts not loading |
| DeveloperList.DeveloperListState.ClearFilters | src/components/developers/DeveloperList.tsx:89-98 | installs the cleared filters and changes nothing else; afterwards every developer list is shown whole |
| DeveloperList.DeveloperListState.EditFilter | src/components/developers/DeveloperList.tsx:79-86 | the filters become the panel's `updateFilter` result; the counts are untouched |
| DeveloperList.DeveloperListState.LoadProjectCounts | src/components/developers/DeveloperList.tsx:42-71 | with no developers nothing changes; otherwise the count map is replaced wholesale by the new one and loading ends |
| ProjectList.KeepProject | src/components/projects/ProjectList.tsx:101-141 | a project is kept iff its name matches, its start and end dates lie in their inclusive lexicographic ranges (an empty bound imposes nothing), its status matches and its developer count is in range |
| ProjectList.FilteredProjects | src/components/projects/ProjectList.tsx:101-141 | exactly the projects that pass, as an order-preserving subsequence, each with its multiplicity |
| ProjectList.ClearedFiltersKeepEveryone | src/components/projects/ProjectList.tsx:87-98 | under the cleared filters every project is shown |
| ProjectList.ToDayIsExcluded | src/components/projects/ProjectList.tsx:108-113 | a start stored as the day followed by a time part sorts after the bare day, so a project starting on the "To" day is filtered out, and the "From" day does not exclude it |
| ProjectList.EndToDayIsExcluded | src/components/projects/ProjectList.tsx:116-121 | the same exclusion of the "To" day for the end date |
| ProjectList.InvertedStartRangeHidesAll | src/components/projects/ProjectList.tsx:108-113 | a start range whose "From" sorts after its "To" hides every project |
| ProjectList.CountEntries | src/components/projects/ProjectList.tsx:44-52 | one entry per project with its id; a failed query gives count 0 |
| ProjectList.DeveloperCounts | src/components/projects/ProjectList.tsx:54-59 | the map's keys are exactly the project ids |
| ProjectList.DeveloperCountOf | src/components/projects/ProjectList.tsx:44-59 | a project's count is its developer list's length, or 0 after a failure; the last project with a repeated id wins |
| ProjectList.ProjectListState.constructor | src/components/projects/ProjectList.tsx:35-36 | the view starts with the cleared filters, no counts and counts not loading |
| ProjectList.ProjectListState.ClearFilters | src/components/projects/ProjectList.tsx:87-98 | installs the cleared filters and changes nothing else; afterwards every project list is shown whole |
| ProjectList.ProjectListState.EditFilter | src/components/projects/ProjectList.tsx:75-84 | the filters become the panel's `updateFilter` result |
| ProjectList.ProjectListState.LoadDeveloperCounts | src/components/projects/ProjectList.tsx:38-67 | with no projects nothing changes; otherwise the count map is replaced wholesale and loading ends |
| RelationshipCounts.QueryCount | src/components/developers/DeveloperList.tsx:49-55 | a failed query counts 0 related records, a successful one the number it returned |
| RelationshipCounts.CountsMap | src/components/developers/DeveloperList.tsx:60-63 | the folded map has exactly the ids of the entries as keys |
| RelationshipCounts.CountsMapLastWins | src/components/developers/DeveloperList.tsx:60-63 | the value stored for an id is the count of its last entry |
| RelationshipCounts.BuildCountsMap | src/components/projects/ProjectList.tsx:56-59 | the accumulator loop yields the fold's map |
| Criteria.InclusiveBounds | src/components/developers/DeveloperList.tsx:108-113 | both range ends are inclusive: x is in [x, x], not in [x+1, ∞) nor in (−∞, x−1] |
| Criteria.InvertedRangeAdmitsNothing | src/components/developers/DeveloperList.tsx:125-130 | a numeric range with min above max admits no value |
| Criteria.InvertedDateRangeAdmitsNothing | src/components/projects/ProjectList.tsx:108-121 | a date range whose "From" sorts after its "To" admits no date |
| Criteria.EmptySearchAdmitsAll | src/components/developers/DeveloperList.tsx:103 | an empty search matches every name |
| Criteria.AccentedCapitalsMatch | src/components/developers/DeveloperList.tsx:103 | the search "ñ" finds the name "NÚÑEZ": accented capitals are lower-cased before the substring test |
| Criteria.NameMatchIgnoresCase | src/components/projects/ProjectList.tsx:103 | the name match gives the same answer after lower-casing either side |
| Strings.ToLower | src/components/developers/DeveloperList.tsx:103 | lower-casing keeps the length, leaves no upper-case ASCII or Latin-1 letter and keeps every other character |
| Strings.ToLowerIdempotent | src/components/developers/DeveloperList.tsx:103 | lower-casing twice is lower-casing once |
| Strings.Contains | src/components/developers/DeveloperList.tsx:103 | `includes` holds iff the needle occurs at some position of the text |
| Strings.StrLessIrreflexive | src/components/projects/ProjectList.tsx:108-121 | no date string sorts before itself |
| Strings.StrLessTransitive | src/components/projects/ProjectList.tsx:108-121 | string order is transitive |
| Strings.StrLessTrichotomy | src/components/projects/ProjectList.tsx:108-121 | of two distinct strings exactly one sorts first |
| Strings.NotLessIsLessEq | src/components/projects/ProjectList.tsx:108-121 | `!(a < b)` iff `b <= a`, which makes each early return the negation of an inclusive bound |
| Strings.PrefixIsLess | src/components/projects/ProjectList.tsx:111 | a string sorts before any proper extension of it |
| DeveloperFiltersComponent.UpdateFilter | src/components/developers/DeveloperFilters.tsx:27-46 | sets the edited field and leaves every other field as it was; a min edit clears its own max iff both are present and the new min exceeds it; after a min edit the pair is ordered |
| DeveloperFiltersComponent.HasActiveFilters | src/components/developers/DeveloperFilters.tsx:48-55 | false exactly for the cleared filters |
| DeveloperFiltersComponent.UpperBoundEditCanInvert | src/components/developers/DeveloperFilters.tsx:27-46 | a max edit never corrects the min, so min > max is reachable |
| DeveloperFiltersComponent.UpdateFilterIdempotent | src/components/developers/DeveloperFilters.tsx:27-46 | repeating an edit changes nothing further |
| DeveloperFiltersComponent.RaisingMinClearsMax | src/components/developers/DeveloperFilters.tsx:33-37 | min 3 / max 5, then min set to 7, gives min 7 and no max |
| ProjectFiltersComponent.UpdateFilter | src/components/projects/ProjectFilters.tsx:29-54 | sets the edited field only; a non-empty "From" sorting after a non-empty "To" resets that "To" to "", a developers min above max resets the max; after such an edit its pair is ordered |
| ProjectFiltersComponent.HasActiveFilters | src/components/projects/ProjectFilters.tsx:56-65 | false exactly for the cleared filters |
| ProjectFiltersComponent.ToEditCanInvert | src/components/projects/ProjectFilters.tsx:29-54 | a "To" edit never corrects the "From", so an inverted date range is reachable |
| ProjectFiltersComponent.EmptyFromKeepsTo | src/components/projects/ProjectFilters.tsx:36-42 | an empty "From" never resets its "To" |
| ProjectFiltersComponent.RangesIndependent | src/components/projects/ProjectFilters.tsx:35-45 | a start-range edit leaves the end range alone and vice versa |
| HookState.AfterFetch | src/hooks/use-developers.ts:12-25 | loading ends; success replaces the list and clears the error; failure keeps the list and records the thrown message, or the fallback text when there is none |
| Wrappers.ErrorText | src/hooks/use-developers.ts:20 | the thrown error's own message when it has one, the operation's fixed text otherwise |
| HookState.AfterFailure | src/hooks/use-developers.ts:37-41 | a failed mutation records the thrown message, or the operation's fallback text when there is none, and keeps the list and the loading flag |
| HookState.AfterAppend | src/hooks/use-developers.ts:87 | `[...prev, x]`: the old list is a prefix, x is last, length grows by one, nothing else changes |
| HookState.FetchForgetsPriorItems | src/hooks/use-project.ts:15-16 | a successful fetch's result does not depend on the previous list |
| UseDevelopers.ErrorClearedOnlyByFetch | src/hooks/use-developers.ts:17 | across any operations none of which ends in a successful fetch, a recorded error stays recorded; create and update never clear it |
| UseDevelopers.LocalEditsOnlyAppend | src/hooks/use-developers.ts:84-112 | any run of creates and updates leaves the old list followed by the returned developers, in order |
| UseDevelopers.UpdateKeepsStaleCopy | src/hooks/use-developers.ts:99-104 | a successful update appends instead of replacing: the old entries stay and the id occurs once more |
| UseDevelopers.Step | src/hooks/use-developers.ts:12-125 | a failed call keeps the list and records an error, and only a failed fetch ends loading; after a successful assign, unassign, reactivate or delete the list is the refetch's result (or unchanged if the refetch failed), loading has ended, and the error is cleared iff the refetch succeeded; a create or update appends what it returned; a successful project lookup changes nothing |
| UseDevelopers.DeveloperStore.constructor | src/hooks/use-developers.ts:7-9 | empty list, loading, no error |
| UseDevelopers.DeveloperStore.FetchDevelopers | src/hooks/use-developers.ts:12-25 | the state after `Step` with a fetch |
| UseDevelopers.DeveloperStore.AssignDeveloperToProject | src/hooks/use-developers.ts:31-43 | returns the service's outcome, refetches on success, records "Error asignando desarrollador al proyecto" or the message on failure |
| UseDevelopers.DeveloperStore.UnassignDeveloperFromProject | src/hooks/use-developers.ts:45-57 | same shape, with its own default message |
| UseDevelopers.DeveloperStore.ReactivateDeveloper | src/hooks/use-developers.ts:59-72 | same shape, with its own default message |
| UseDevelopers.DeveloperStore.GetAllProjectsByDeveloper | src/hooks/use-developers.ts:74-82 | passes the result through and never touches the list; a failure only records the error |
| UseDevelopers.DeveloperStore.CreateDeveloper | src/hooks/use-developers.ts:84-97 | appends the created developer on success, records the error otherwise |
| UseDevelopers.DeveloperStore.UpdateDeveloper | src/hooks/use-developers.ts:99-112 | appends the returned developer on success, without removing the stale copy |
| UseDevelopers.DeveloperStore.DeleteDeveloper | src/hooks/use-developers.ts:113-125 | refetches on success, records the error otherwise |
| UseProjects.ReplaceById | src/hooks/use-project.ts:48-52 | the patched list has the same length |
| UseProjects.ReplaceByIdPatches | src/hooks/use-project.ts:48-52 | the `map` patches every index: each entry with the id becomes the returned project, every other entry is kept, and the length is unchanged |
| UseProjects.ReplaceByIdAt | src/hooks/use-project.ts:48-52 | every entry with the id becomes the returned project and every other entry is untouched |
| UseProjects.ReplaceByIdNoMatch | src/hooks/use-project.ts:48-52 | with no matching id the list is unchanged |
| UseProjects.ReplaceByIdKeepsIds | src/hooks/use-project.ts:97-101 | when the response carries the targeted id, the ids and their order are unchanged |
| UseProjects.ErrorClearedOnlyByFetch | src/hooks/use-project.ts:16 | only a successful fetch clears a recorded error |
| UseProjects.PatchesKeepIds | src/hooks/use-project.ts:93-124 | any run of updates, assigns and removes whose responses keep their ids leaves the ids, order, length and loading flag unchanged |
| UseProjects.Step | src/hooks/use-project.ts:11-124 | a failed call keeps the list and records an error, and only a failed fetch ends loading; after a successful reactivate or delete the list is the refetch's result (or unchanged if it failed), loading has ended and the error is cleared iff the refetch succeeded; a create appends; a successful update, assign or remove replaces every entry carrying the targeted id by the response and keeps every other entry, the length, the loading flag and the error |
| UseProjects.UpdateReplacesInPlace | src/hooks/use-project.ts:45-52 | [A, B] with A updated to A' gives [A', B] |
| UseProjects.ProjectStore.constructor | src/hooks/use-project.ts:7-9 | empty list, loading, no error |
| UseProjects.ProjectStore.FetchProjects | src/hooks/use-project.ts:11-24 | the state after `Step` with a fetch |
| UseProjects.ProjectStore.CreateProject | src/hooks/use-project.ts:30-43 | appends on success, records the error otherwise |
| UseProjects.ProjectStore.UpdateProject | src/hooks/use-project.ts:45-62 | replaces every entry with the id by the response on success |
| UseProjects.ProjectStore.ReactivateProject | src/hooks/use-project.ts:64-77 | refetches on success, records the error otherwise |
| UseProjects.ProjectStore.DeleteProject | src/hooks/use-project.ts:79-91 | refetches on success, records the error otherwise |
| UseProjects.ProjectStore.AssignDeveloperToProject | src/hooks/use-project.ts:93-108 | patches the project by id locally, without a refetch |
| UseProjects.ProjectStore.RemoveDeveloperFromProject | src/hooks/use-project.ts:110-124 | patches the project by id locally, without a refetch |
| AssignProjectModal.IsProjectAssigned | src/components/developers/AssignProjectModal.tsx:59-61 | true iff some assigned project has the id |
| AssignProjectModal.ActiveProjects | src/components/developers/AssignProjectModal.tsx:64 | exactly the active projects, each as often as in the input, in their original order |
| AssignProjectModal.ActionFor | src/components/developers/AssignProjectModal.tsx:176 | the button unassigns iff the project is assigned, and assigns otherwise |
| AssignProjectModal.NothingAssignedOffersAssign | src/components/developers/AssignProjectModal.tsx:48-53 | with no assigned projects, as after a failed load, every active project offers assign |
| AssignProjectModal.AssignModal.constructor | src/components/developers/AssignProjectModal.tsx:33-36 | no markers, nothing assigned, not loading |
| AssignProjectModal.AssignModal.LoadAssignedProjects | src/components/developers/AssignProjectModal.tsx:45-56 | the assigned list is the query's result, or empty after a failure; loading ends |
| AssignProjectModal.AssignModal.HandleAssign | src/components/developers/AssignProjectModal.tsx:66-82 | on success the hook assigns, the assigned list is reloaded and then success is notified; on failure only the request happened; the marker is reset either way |
| AssignProjectModal.AssignModal.HandleUnassign | src/components/developers/AssignProjectModal.tsx:84-100 | the same for unassign |
| AssignProjectModal.AssignModal.Button | src/components/developers/AssignProjectModal.tsx:146-147 | the button unassigns iff the project is assigned, and is busy iff its id is the assigning or unassigning marker |
| DeveloperSchema.FieldIssues | src/components/developers/developer.schema.ts:4-18 | a field reports nothing iff it is valid, and every issue it reports names that field |
| DeveloperSchema.IssuesOf | src/components/developers/developer.schema.ts:3-19 | over any list of fields, every issue names an invalid field, and a field is reported iff it is listed and invalid |
| DeveloperSchema.Validate | src/components/developers/developer.schema.ts:3-19 | a record reports nothing iff every field is valid; each issue names a failing field and each failing field is reported |
| ProjectSchema.FieldIssues | src/components/projects/project.schema.ts:4-10 | a field reports nothing iff it is valid, and its issues name it |
| ProjectSchema.Validate | src/components/projects/project.schema.ts:3-11 | a record reports nothing iff all three fields are valid; issues name exactly the failing fields |
| ProjectSchema.EndBeforeStartAccepted | src/components/projects/project.schema.ts:3-11 | there is no cross-field check: some accepted record ends before it starts |
| DeveloperForm.ClampExperience | src/components/developers/DeveloperForm.tsx:196-202 | the value is always at least 1: an empty, non-numeric or sub-1 input becomes 1 and any other value is kept |
| DeveloperForm.ClampIdempotent | src/components/developers/DeveloperForm.tsx:196-202 | clamping a clamped value changes nothing |
| DeveloperForm.ClampLeavesUpperBoundToSchema | src/components/developers/DeveloperForm.tsx:200-201 | there is no upper clamp: a clamped value meets the schema iff it is at most 50, and 51 passes the input but not the schema |
| DeveloperForm.DatePart | src/components/developers/DeveloperForm.tsx:31 | `split('T')[0]`: a prefix of the text, free of 'T', followed by 'T' whenever it stops short |
| DeveloperForm.DatePartOfTimestamp | src/components/developers/DeveloperForm.tsx:31 | a stored `day + "T" + time` yields the day |
| DeveloperForm.DatePartWithoutT | src/components/developers/DeveloperForm.tsx:31 | text without a 'T' is kept whole |
| DeveloperForm.DefaultValues | src/components/developers/DeveloperForm.tsx:27-33 | without a developer the fields are empty and experience is 1; with one they are copied, the date is the stored value's `DatePart` (cut before the first 'T'), and an experience of 0 becomes 1 |
| DeveloperForm.DefaultDateOfStoredTimestamp | src/components/developers/DeveloperForm.tsx:31 | editing a developer whose date carries a time part shows its day |
| DeveloperForm.SubmitDispatch | src/components/developers/DeveloperForm.tsx:49-53 | mode create calls create; any other mode, absent included, calls update with the developer's id; without a developer no call is made |
| Layout.GetBreadcrumbs | src/components/layouts/Layout.tsx:14-31 | the trail starts at Dashboard "/", exactly its last crumb is active, the two list pages add their own crumb, and any other path gives the root's trail |
| Layout.UnknownPathIsRoot | src/components/layouts/Layout.tsx:28-29 | an unknown path gives the same trail as "/" |
| Layout.FirstCrumbLinksUnlessAlone | src/components/layouts/Layout.tsx:14-31 | the Dashboard crumb is a link exactly when the trail has a second crumb |

## Left out

- The axios services (`src/services/*`) are not part of this model. Each call is an `Outcome` parameter, and a thrown error is `Failure` with its message, or with none when the thrown value is not an `Error`.
- Several service methods the core calls are not defined in `src/services/*`: `unassignFromProject`, `activateDeveloper` and `getAllProjectsByDeveloper` on the developer service (src/hooks/use-developers.ts:47, 61, 76; src/components/developers/DeveloperList.tsx:50), and `getDevelopersByProject`, `reactivateProject`, `assignDeveloperToProject` and `removeDeveloperFromProject` on the project service (src/components/projects/ProjectList.tsx:46; src/hooks/use-project.ts:66, 95, 112). Calling them throws a `TypeError`, so in this source tree those outcomes are always `Failure` with that error's message, and every relationship count is 0. The model keeps the outcomes as parameters, which covers that case and the intended one.
- The `Promise.all` fan-out and overlapping async calls are not modelled. The per-entity results arrive as a sequence in list order, and the count fold's outer `catch` cannot fire because every per-entity promise catches its own error. Races between refetches are out of scope.
- Toasts, console logging and navigation are not modelled: they hold no state the model tracks.
- The mount effects and `useEffect` re-triggers are not modelled. A client calls `FetchDevelopers`/`FetchProjects`, `LoadProjectCounts` or `LoadAssignedProjects` when the source's effect would fire.
- `getDeveloperById` and `getProjectById` are left out: they pass a service call straight through.
- Date and locale handling is left out: `new Date(...).toISOString()` in the form's submit, `toLocaleDateString` and `formatLocalDate`. Dates are the strings the inputs and the server supply.
- Strings are sequences of Unicode scalar values, not of UTF-16 code units. `ToLower` folds the ASCII and Latin-1 capitals only; full Unicode case mapping is not modelled. String order compares scalar values, not code units. The schemas' length bounds (`.min`/`.max` in zod) count scalar values, so a character outside the Basic Multilingual Plane such as "😀" counts 1 here but 2 in the source.
- Numbers are modelled as `int`. Fractional filter bounds, `Number`/`parseInt` quirks, `NaN` and the schema's `.int()` check (always met by an `int`) are out of scope.
- DeveloperForm.ClampExperience: the caller supplies the parsed input (`None` for an empty or non-numeric entry). The difference between `isNaN(Number(v))` and `parseInt(v, 10)` is not modelled. On "1.5" the source keeps 1. On ".5", `Number` accepts the text but `parseInt` yields `NaN`, so the source stores `NaN`, which the schema rejects (`z.number()` or `.int()`, depending on the zod version); the model has no such value.
- DeveloperForm.SubmitDispatch: the data passed on is the validated record as is. The date's conversion to an ISO timestamp and the `Number(...) || 0` on the experience are not modelled.
- DeveloperSchema.Validate: the e-mail shape check is the parameter `isEmail`, because zod's regular expression is a library internal.
- AssignProjectModal.AssignModal.HandleAssign: the busy marker is set during the call and reset afterwards. The postcondition only sees the reset, so the intermediate busy render is not stated.
- AssignProjectModal.AssignModal.HandleUnassign: the same holds for the unassign marker.
- Presentational components, pages, `App.tsx`, the sidebar, the cards, `ProjectsList.tsx` and `ProjectForm.tsx` are not part of this model. `ProjectForm.tsx`'s only logic is the `split('T')[0]` default that `DeveloperForm.DatePart` models.
