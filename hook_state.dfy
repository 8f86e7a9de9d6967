/** The `items / loading / error` triple each entity hook owns, and the state
    changes its operations are built from. */
module HookState {
  import opened Wrappers

  datatype HookState<T> = HookState(items: seq<T>, loading: bool, error: Option<string>)

  /** Before the mount-time fetch has settled. */
  function Initial<T>(): HookState<T>
  {
    HookState([], true, None)
  }

  /** A fetch: `setLoading(true)`, then the list and `error = null` on success or only the
      error text on failure, then `setLoading(false)`. */
  function AfterFetch<T>(s: HookState<T>, list: Outcome<seq<T>>, fallback: string): (r: HookState<T>)
    ensures !r.loading
    ensures list.Success? ==> r.items == list.value && r.error == None
    ensures list.Failure? ==> r.items == s.items && r.error.Some?
    ensures list.Failure? ==> r.error == Some(ErrorText(list.message, fallback))
  {
    match list
    case Success(data) => HookState(data, false, None)
    case Failure(m) => HookState(s.items, false, Some(ErrorText(m, fallback)))
  }

  /** A failed mutation's `catch`: records the error text, changes nothing else. */
  function AfterFailure<T>(s: HookState<T>, message: Option<string>, fallback: string): (r: HookState<T>)
    ensures r.items == s.items && r.loading == s.loading && r.error.Some?
    ensures r.error == Some(ErrorText(message, fallback))
  {
    s.(error := Some(ErrorText(message, fallback)))
  }

  /** `setItems(prev => [...prev, x])`. */
  function AfterAppend<T>(s: HookState<T>, x: T): (r: HookState<T>)
    ensures |r.items| == |s.items| + 1 && r.items[..|s.items|] == s.items && r.items[|s.items|] == x
    ensures r.loading == s.loading && r.error == s.error
  {
    s.(items := s.items + [x])
  }

  /** A fetch that succeeds replaces the list wholesale: what was there before does not matter. */
  lemma FetchForgetsPriorItems<T>(s1: HookState<T>, s2: HookState<T>, data: seq<T>, fallback: string)
    ensures AfterFetch(s1, Success(data), fallback) == AfterFetch(s2, Success(data), fallback)
  {
  }
}
