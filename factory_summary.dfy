/** The state of the factory summary page (`src/pages/FactorySummary.tsx`):
    the loaded entries, the filtered entries, the two date bounds and the
    summary on display, with the transitions that change them. */
module FactorySummaryPage {
  import opened Types
  import opened Sequences
  import opened Api
  import opened DateFilter

  class FactorySummaryView {
    var expenses: seq<ExpenseEntry>
    var summary: Option<FactorySummary>
    var isLoading: bool
    var startDate: Option<Date>
    var endDate: Option<Date>
    var filteredExpenses: seq<ExpenseEntry>

    /** The page as first rendered: nothing loaded, loading, no bounds. */
    constructor ()
      ensures expenses == [] && filteredExpenses == [] && summary == None
      ensures isLoading && startDate == None && endDate == None
    {
      expenses, filteredExpenses, summary := [], [], None;
      isLoading, startDate, endDate := true, None, None;
    }

    /** `fetchData`: load every entry and the store's factory summary; both
        lists start out equal. */
    method FetchData(store: Store)
      modifies this`expenses, this`filteredExpenses, this`summary, this`isLoading
      ensures expenses == store.Entries() && filteredExpenses == expenses
      ensures summary == Some(Summarize(store.Entries()))
      ensures !isLoading
    {
      isLoading := true;
      var expensesData := store.GetAllExpenses();
      var summaryData := store.GetFactorySummary();
      expenses := expensesData;
      filteredExpenses := expensesData;
      summary := Some(summaryData);
      isLoading := false;
    }

    /** The start-date field; the empty string is `None`. */
    method SetStartDate(d: Option<Date>)
      modifies this`startDate
      ensures startDate == d
    {
      startDate := d;
    }

    /** The end-date field; the empty string is `None`. */
    method SetEndDate(d: Option<Date>)
      modifies this`endDate
      ensures endDate == d
    {
      endDate := d;
    }

    /** `handleFilter`: start again from the loaded list, keep the entries in
        the window, and recompute the summary over what is kept. The loaded
        list and the bounds are not touched, so a second call with the same
        bounds produces the same state. */
    method HandleFilter()
      modifies this`filteredExpenses, this`summary
      ensures filteredExpenses == Window(expenses, startDate, endDate)
      ensures summary == Some(Summarize(filteredExpenses))
      ensures summary.value.balance == summary.value.totalCredit - summary.value.totalDebit
      ensures startDate.None? && endDate.None? ==>
                filteredExpenses == expenses && summary == Some(Summarize(expenses))
    {
      var filtered := expenses;
      if startDate.Some? {
        filtered := Filter(filtered, OnOrAfter(startDate.value));
      }
      if endDate.Some? {
        filtered := Filter(filtered, OnOrBefore(endDate.value));
      }
      assert filtered == Stepwise(expenses, startDate, endDate);
      if startDate.None? && endDate.None? {
        WindowUnbounded(expenses);
      }
      filteredExpenses := filtered;

      var totalCredit := Total(Filter(filtered, IsOfType(Credit)));
      var totalDebit := Total(Filter(filtered, IsOfType(Debit)));
      assert Summarize(filtered) == FactorySummary(totalCredit, totalDebit, totalCredit - totalDebit);
      summary := Some(FactorySummary(totalCredit, totalDebit, totalCredit - totalDebit));
    }

    /** `clearFilters`: empty both bounds, show the whole loaded list again and
        take the summary the store reports now. */
    method ClearFilters(store: Store)
      modifies this`startDate, this`endDate, this`filteredExpenses, this`summary
      ensures startDate == None && endDate == None
      ensures filteredExpenses == expenses
      ensures summary == Some(Summarize(store.Entries()))
    {
      startDate := None;
      endDate := None;
      filteredExpenses := expenses;
      var summaryData := store.GetFactorySummary();
      summary := Some(summaryData);
    }
  }

  /** A page opened, loaded and then filtered with both bounds empty shows the
      store's factory summary and every stored entry. */
  method UnboundedFilterMatchesStore(store: Store) returns (page: FactorySummaryView)
    ensures page.startDate == None && page.endDate == None
    ensures page.filteredExpenses == store.Entries()
    ensures page.summary == Some(Summarize(store.Entries()))
  {
    page := new FactorySummaryView();
    page.FetchData(store);
    page.HandleFilter();
  }

  /** Narrowing the window never loses track of what was removed: the full
      summary is the filtered summary plus the summary of the entries outside
      the window. */
  lemma FilteredSummaryPlusRest(es: seq<ExpenseEntry>, start: Option<Date>, end: Option<Date>)
    ensures Summarize(es).totalCredit
         == Summarize(Window(es, start, end)).totalCredit
          + Summarize(Filter(es, OutsideWindow(start, end))).totalCredit
    ensures Summarize(es).totalDebit
         == Summarize(Window(es, start, end)).totalDebit
          + Summarize(Filter(es, OutsideWindow(start, end))).totalDebit
  {
    SummarizePartition(es, InWindow(start, end), OutsideWindow(start, end));
  }
}
