/** The state of one person's detail view (`src/components/PersonDetail.tsx`):
    the person's loaded transactions, the filtered transactions, the two date
    bounds and the person summary on display. */
module PersonDetailView {
  import opened Types
  import opened Sequences
  import opened Api
  import opened DateFilter

  class PersonDetail {
    const personId: int
    var transactions: seq<ExpenseEntry>
    var summary: Option<PersonSummary>
    var isLoading: bool
    var startDate: Option<Date>
    var endDate: Option<Date>
    var filteredTransactions: seq<ExpenseEntry>

    /** The view as first rendered for `personId`. */
    constructor (personId: int)
      ensures this.personId == personId
      ensures transactions == [] && filteredTransactions == [] && summary == None
      ensures isLoading && startDate == None && endDate == None
    {
      this.personId := personId;
      transactions, filteredTransactions, summary := [], [], None;
      isLoading, startDate, endDate := true, None, None;
    }

    /** `fetchData`: load the person's entries and summary together. When no
        person has this id the summary request never settles, so nothing is
        stored and the view stays loading. */
    method FetchData(store: Store)
      modifies this`transactions, this`filteredTransactions, this`summary, this`isLoading
      ensures PersonSummaryOf(store.Persons(), store.Entries(), personId).Ok? ==>
                && transactions == ByPerson(store.Entries(), personId)
                && (forall i :: 0 <= i < |transactions| ==> transactions[i].personId == personId)
                && filteredTransactions == transactions
                && summary == Some(PersonSummaryOf(store.Persons(), store.Entries(), personId).value)
                && !isLoading
      ensures PersonSummaryOf(store.Persons(), store.Entries(), personId).Err? ==>
                && transactions == old(transactions)
                && filteredTransactions == old(filteredTransactions)
                && summary == old(summary)
                && isLoading
    {
      isLoading := true;
      var transactionsData := store.GetExpensesByPerson(personId);
      var summaryData := store.GetPersonSummary(personId);
      if summaryData.Ok? {
        transactions := transactionsData;
        filteredTransactions := transactionsData;
        summary := Some(summaryData.value);
        isLoading := false;
      }
    }

    /** The start-date field; the empty string is `None`. */
    method SetStartDate(d: Option<Date>)
      modifies this`startDate
      ensures startDate == d
    {
      startDate := d;
    }

    /** The end-date field; the empty string is `None`. */
    method SetEndDate(d: Option<Date>)
      modifies this`endDate
      ensures endDate == d
    {
      endDate := d;
    }

    /** `handleFilter`: start again from the loaded transactions, keep those in
        the window, and replace only the three totals of a loaded summary;
        without a loaded summary there is still none. */
    method HandleFilter()
      modifies this`filteredTransactions, this`summary
      ensures filteredTransactions == Window(transactions, startDate, endDate)
      ensures startDate.None? && endDate.None? ==> filteredTransactions == transactions
      ensures summary.Some? <==> old(summary).Some?
      ensures summary.Some? ==>
                && summary.value.id == old(summary).value.id
                && summary.value.name == old(summary).value.name
                && summary.value.totalCredit == Summarize(filteredTransactions).totalCredit
                && summary.value.totalDebit == Summarize(filteredTransactions).totalDebit
                && summary.value.balance == summary.value.totalCredit - summary.value.totalDebit
    {
      var filtered := transactions;
      if startDate.Some? {
        filtered := Filter(filtered, OnOrAfter(startDate.value));
      }
      if endDate.Some? {
        filtered := Filter(filtered, OnOrBefore(endDate.value));
      }
      assert filtered == Stepwise(transactions, startDate, endDate);
      if startDate.None? && endDate.None? {
        WindowUnbounded(transactions);
      }
      filteredTransactions := filtered;

      var totalCredit := Total(Filter(filtered, IsOfType(Credit)));
      var totalDebit := Total(Filter(filtered, IsOfType(Debit)));
      assert Summarize(filtered).totalCredit == totalCredit && Summarize(filtered).totalDebit == totalDebit;
      if summary.Some? {
        summary := Some(summary.value.(totalCredit := totalCredit, totalDebit := totalDebit,
                                       balance := totalCredit - totalDebit));
      }
    }

    /** `clearFilters`: empty both bounds, show all loaded transactions again
        and take the person summary the store reports now, if it reports one. */
    method ClearFilters(store: Store)
      modifies this`startDate, this`endDate, this`filteredTransactions, this`summary
      ensures startDate == None && endDate == None
      ensures filteredTransactions == transactions
      ensures summary == match PersonSummaryOf(store.Persons(), store.Entries(), personId)
                         case Ok(s) => Some(s)
                         case Err(_) => old(summary)
    {
      startDate := None;
      endDate := None;
      filteredTransactions := transactions;
      var summaryData := store.GetPersonSummary(personId);
      if summaryData.Ok? {
        summary := Some(summaryData.value);
      }
    }
  }

  /** The filtered transactions of a person never include another person's
      entries: filtering by date and selecting the person commute, and an
      entry of someone else changes neither the list nor its totals. */
  lemma FilteredTotalsOwnEntriesOnly(es: seq<ExpenseEntry>, personId: int, start: Option<Date>, end: Option<Date>, other: ExpenseEntry)
    requires other.personId != personId
    ensures forall i :: 0 <= i < |Window(ByPerson(es, personId), start, end)| ==>
              Window(ByPerson(es, personId), start, end)[i].personId == personId
    ensures Window(ByPerson(es, personId), start, end) == ByPerson(Window(es, start, end), personId)
    ensures Window(ByPerson(es + [other], personId), start, end) == Window(ByPerson(es, personId), start, end)
  {
    FilterCommute(es, BelongsTo(personId), InWindow(start, end));
    FilterConcat(es, [other], BelongsTo(personId));
    assert ByPerson([other], personId) == [];
    assert ByPerson(es, personId) + [] == ByPerson(es, personId);
  }

  /** With no bounds and the store unchanged since loading, recomputing the
      person's totals over the loaded transactions reproduces the store's
      person summary exactly. */
  lemma UnboundedFilterMatchesStore(ps: seq<Person>, es: seq<ExpenseEntry>, personId: int)
    requires PersonSummaryOf(ps, es, personId).Ok?
    ensures var s := PersonSummaryOf(ps, es, personId).value;
            var t := Summarize(Window(ByPerson(es, personId), None, None));
            s.(totalCredit := t.totalCredit, totalDebit := t.totalDebit, balance := t.totalCredit - t.totalDebit) == s
  {
    WindowUnbounded(ByPerson(es, personId));
  }
}
