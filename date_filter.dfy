/** The client-side date-range filter that both views apply in `handleFilter`:
    an optional inclusive lower bound, then an optional inclusive upper bound,
    applied to the loaded list. An empty date field is an absent bound. */
module DateFilter {
  import opened Types
  import opened Sequences

  /** The first step: `new Date(entry.date) >= new Date(startDate)`. */
  function OnOrAfter(start: Date): ExpenseEntry -> bool
  {
    (e: ExpenseEntry) => e.date >= start
  }

  /** The second step: `new Date(entry.date) <= new Date(endDate)`. */
  function OnOrBefore(end: Date): ExpenseEntry -> bool
  {
    (e: ExpenseEntry) => e.date <= end
  }

  /** The window the two bounds describe; an absent bound does not restrict. */
  predicate Within(d: Date, start: Option<Date>, end: Option<Date>)
  {
    (start.None? || start.value <= d) && (end.None? || d <= end.value)
  }

  function InWindow(start: Option<Date>, end: Option<Date>): ExpenseEntry -> bool
  {
    (e: ExpenseEntry) => Within(e.date, start, end)
  }

  function OutsideWindow(start: Option<Date>, end: Option<Date>): ExpenseEntry -> bool
  {
    (e: ExpenseEntry) => !Within(e.date, start, end)
  }

  /** Reference definition of the filter's result: one pass keeping exactly
      the entries inside the window. */
  function Window(es: seq<ExpenseEntry>, start: Option<Date>, end: Option<Date>): (r: seq<ExpenseEntry>)
    ensures forall i :: 0 <= i < |r| ==> Within(r[i].date, start, end)
    ensures forall i :: 0 <= i < |es| && Within(es[i].date, start, end) ==> es[i] in r
  {
    Filter(es, InWindow(start, end))
  }

  /** The two steps as the views run them, starting again from `es`: keep the
      entries on or after a set start, then those on or before a set end.
      Running the steps one after the other is one pass with the whole window. */
  function Stepwise(es: seq<ExpenseEntry>, start: Option<Date>, end: Option<Date>): (r: seq<ExpenseEntry>)
    ensures r == Window(es, start, end)
  {
    match (start, end)
    case (None, None) =>
      FilterKeepsAll(es, InWindow(start, end));
      es
    case (Some(a), None) =>
      FilterAgree(es, OnOrAfter(a), InWindow(start, end));
      Filter(es, OnOrAfter(a))
    case (None, Some(b)) =>
      FilterAgree(es, OnOrBefore(b), InWindow(start, end));
      Filter(es, OnOrBefore(b))
    case (Some(a), Some(b)) =>
      FilterThenFilter(es, OnOrAfter(a), OnOrBefore(b), InWindow(start, end));
      Filter(Filter(es, OnOrAfter(a)), OnOrBefore(b))
  }

  /** Soundness, completeness and order: every kept entry lies in the window,
      every loaded entry in the window is kept as often as it was loaded, and
      the result is a subsequence of the loaded list. */
  lemma WindowExact(es: seq<ExpenseEntry>, start: Option<Date>, end: Option<Date>, e: ExpenseEntry)
    ensures forall i :: 0 <= i < |Window(es, start, end)| ==> Within(Window(es, start, end)[i].date, start, end)
    ensures forall i :: 0 <= i < |es| && Within(es[i].date, start, end) ==> es[i] in Window(es, start, end)
    ensures multiset(Window(es, start, end))[e] == if Within(e.date, start, end) then multiset(es)[e] else 0
    ensures IsSubsequence(Window(es, start, end), es)
  {
    FilterMultiplicity(es, InWindow(start, end), e);
    FilterIsSubsequence(es, InWindow(start, end));
  }

  /** With both bounds empty the filter keeps the whole loaded list. */
  lemma WindowUnbounded(es: seq<ExpenseEntry>)
    ensures Window(es, None, None) == es
  {
    FilterKeepsAll(es, InWindow(None, None));
  }

  /** Filtering the filtered list again with the same bounds changes nothing. */
  lemma WindowIdempotent(es: seq<ExpenseEntry>, start: Option<Date>, end: Option<Date>)
    ensures Window(Window(es, start, end), start, end) == Window(es, start, end)
  {
    FilterIdempotent(es, InWindow(start, end));
  }

  /** The filter works entry by entry, so it distributes over concatenation. */
  lemma WindowConcat(a: seq<ExpenseEntry>, b: seq<ExpenseEntry>, start: Option<Date>, end: Option<Date>)
    ensures Window(a + b, start, end) == Window(a, start, end) + Window(b, start, end)
  {
    FilterConcat(a, b, InWindow(start, end));
  }
}
