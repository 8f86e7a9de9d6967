/** The criteria both list filters are built from, stated declaratively: a
    reference against which the early-return filter code is proved. */
module Criteria {
  import opened Wrappers
  import opened Strings

  /** The three-way status selector of both filter panels. */
  datatype StatusFilter = All | Active | Inactive

  /** Empty search imposes nothing; otherwise a case-insensitive substring match. */
  predicate NameMatches(search: string, name: string)
  {
    search == "" || Contains(ToLower(name), ToLower(search))
  }

  /** Inclusive range whose absent bounds impose nothing. */
  predicate InRange(x: int, lo: Option<int>, hi: Option<int>)
  {
    (lo.None? || lo.value <= x) && (hi.None? || x <= hi.value)
  }

  predicate StatusMatches(status: StatusFilter, active: bool)
  {
    match status
    case All => true
    case Active => active
    case Inactive => !active
  }

  /** Inclusive range of strings in lexicographic order; an empty bound imposes nothing. */
  predicate InDateRange(date: string, from: string, to: string)
  {
    (from == "" || StrLessEq(from, date)) && (to == "" || StrLessEq(date, to))
  }

  /** `counts[id] || 0`: the count recorded for `id`, or 0 when there is none. */
  function CountFor(counts: map<int, nat>, id: int): nat
  {
    if id in counts then counts[id] else 0
  }

  /** Both bounds present and the lower above the upper. */
  predicate Inverted(lo: Option<int>, hi: Option<int>)
  {
    lo.Some? && hi.Some? && lo.value > hi.value
  }

  /** One bound absent, or the pair in order: the opposite of `Inverted`. */
  predicate Ordered(lo: Option<int>, hi: Option<int>)
  {
    lo.None? || hi.None? || lo.value <= hi.value
  }

  predicate DatesInverted(from: string, to: string)
  {
    from != "" && to != "" && StrLess(to, from)
  }

  lemma InclusiveBounds(x: int)
    ensures InRange(x, Some(x), Some(x))
    ensures !InRange(x, Some(x + 1), None) && !InRange(x, None, Some(x - 1))
  {
  }

  /** A range whose lower bound exceeds its upper bound admits nothing. */
  lemma InvertedRangeAdmitsNothing(x: int, lo: Option<int>, hi: Option<int>)
    requires Inverted(lo, hi)
    ensures !InRange(x, lo, hi)
  {
  }

  /** The same holds for date ranges, because string order is transitive. */
  lemma InvertedDateRangeAdmitsNothing(date: string, from: string, to: string)
    requires DatesInverted(from, to)
    ensures !InDateRange(date, from, to)
  {
    if InDateRange(date, from, to) {
      if from == date {
        StrLessTrichotomy(to, from);
      } else if date == to {
        StrLessTrichotomy(to, from);
      } else {
        StrLessTransitive(from, date, to);
        StrLessTrichotomy(to, from);
      }
    }
  }

  /** With status `All` and no other constraint, a name search of "" admits every name. */
  lemma EmptySearchAdmitsAll(name: string)
    ensures NameMatches("", name)
  {
  }

  /** The name criterion ignores letter case on both sides. */
  lemma NameMatchIgnoresCase(search: string, name: string)
    ensures NameMatches(search, name) == NameMatches(ToLower(search), ToLower(name))
  {
    ToLowerIdempotent(search);
    ToLowerIdempotent(name);
  }

  /** Accented capitals fold too: a search for "ñ" finds "NÚÑEZ". */
  lemma AccentedCapitalsMatch()
    ensures NameMatches("ñ", "NÚÑEZ")
  {
  }
}
