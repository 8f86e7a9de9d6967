/** What both form schemas share: an issue names the failing field and carries its
    message, and each check of a field contributes at most one issue. */
module Validation {

  /** One failed check: the field and the message shown under it. */
  datatype Issue<F> = Issue(path: F, message: string)

  /** The issue for one check, present when the check fails. */
  function Check<F>(ok: bool, path: F, message: string): (issues: seq<Issue<F>>)
    ensures issues == [] <==> ok
    ensures forall i :: 0 <= i < |issues| ==> issues[i] == Issue(path, message)
  {
    if ok then [] else [Issue(path, message)]
  }

  /** Two chained checks of one field; both run and both may report. */
  function CheckBoth<F>(first: bool, firstMessage: string, second: bool, secondMessage: string, path: F): (issues: seq<Issue<F>>)
    ensures issues == [] <==> first && second
    ensures forall i :: 0 <= i < |issues| ==> issues[i].path == path
  {
    Check(first, path, firstMessage) + Check(second, path, secondMessage)
  }

  /** Some issue in the list is about field `f`. */
  predicate Reports<F(==)>(issues: seq<Issue<F>>, f: F)
  {
    exists i :: 0 <= i < |issues| && issues[i].path == f
  }

  lemma ReportsConcat<F>(a: seq<Issue<F>>, b: seq<Issue<F>>, f: F)
    ensures Reports(a + b, f) <==> Reports(a, f) || Reports(b, f)
  {
    if Reports(a, f) {
      var i :| 0 <= i < |a| && a[i].path == f;
      assert (a + b)[i] == a[i];
    }
    if Reports(b, f) {
      var i :| 0 <= i < |b| && b[i].path == f;
      assert (a + b)[|a| + i] == b[i];
    }
    if Reports(a + b, f) {
      var i :| 0 <= i < |a + b| && (a + b)[i].path == f;
      if i >= |a| { assert b[i - |a|] == (a + b)[i]; } else { assert a[i] == (a + b)[i]; }
    }
  }

  /** The issues of one field report that field exactly when there are any. */
  lemma ReportsOwnField<F>(issues: seq<Issue<F>>, path: F, f: F)
    requires forall i :: 0 <= i < |issues| ==> issues[i].path == path
    ensures Reports(issues, f) <==> issues != [] && f == path
  {
    if issues != [] && f == path {
      assert issues[0].path == f;
    }
  }
}
