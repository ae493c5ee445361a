# Khata Tracker ledger core, in Dafny

This project models the ledger logic of the Khata Tracker web application (a
credit/debit book kept per person, with organisation-wide "factory" totals):

- the **record store** of `src/services/api.ts`: two collections held in device
  storage under the keys `persons` and `expenseEntries`, seeded once when a key
  is absent, grown by read-modify-write appends whose ids come from `getNewId`
  (max + 1, or 1 for an empty collection), read whole or by `personId`, and
  summarised as `totalCredit`, `totalDebit` and `balance = totalCredit - totalDebit`
  for the whole collection or for one person (an unknown person is an error);
- the **date-range filter and summary recomputation** of the factory summary
  page (`src/pages/FactorySummary.tsx`) and of the person detail view
  (`src/components/PersonDetail.tsx`): each view keeps its loaded list, a
  filtered list, two optional inclusive date bounds and a summary; filtering
  always starts again from the loaded list, and the summary is recomputed
  with the store's formula.

Files and modules:

- `types.dfy` (`Types`): persons, expense entries, the two summary records,
  `Option`/`Result`. Dates are integers `YYYYMMDD`, which order as the
  `YYYY-MM-DD` dates do; amounts are whole rupees, as integers.
- `sequences.dfy` (`Sequences`): order-preserving `Filter`, the operation
  behind every `filter` call, with its lemmas (soundness, completeness with
  multiplicities, subsequence, concatenation, commutation, idempotence).
- `api.dfy` (`Api`): the id allocator, the aggregation formula (`reduce` as a
  left fold) and its correctness against a reference sum, the person lookup and
  person summary, the seed data, and the class `Store` whose fields are the two
  storage slots (`None` is an absent key; a read of an absent key yields `[]`).
- `date_filter.dfy` (`DateFilter`): the two-step filter both views run, proved
  equal to one pass with the whole window.
- `factory_summary.dfy` (`FactorySummaryPage`): class `FactorySummaryView`.
- `person_detail.dfy` (`PersonDetailView`): class `PersonDetail`.

Each store call and each view transition is one atomic step: the timers,
promises and JSON round trips around them are not modelled.

Behaviour of the code that a reader might not expect, and that the model keeps:

- An unknown person's summary promise never settles: `getPersonSummary`
  throws inside its timer callback (`src/services/api.ts:150-152`), so the
  rejection never reaches the promise it returned. `PersonDetail.FetchData`
  therefore stores nothing and stays loading, and `PersonDetail.ClearFilters`
  keeps the summary it had.
- A stored empty list is not reseeded: `initializeLocalStorage` tests
  `!localStorage.getItem(key)` (`src/services/api.ts:6`, `:15`), which only an
  absent key passes (`Api.Seeded`).
- `api.ts` reads and writes device storage only; it never imports the remote
  client of `src/lib/supabase.ts` or `src/services/supabase.ts`. Its summaries
  cover every stored entry, and date restriction happens only in the views.
- The store does not check that an entry's `personId` names an existing
  person, nor that a name is non-empty; `AddExpenseEntry` and `AddPerson`
  accept any input, as `src/services/api.ts:80-130` does.

## Model

| member | source | states |
|---|---|---|
| Sequences.Filter | src/services/api.ts:109-111 | `Array.prototype.filter`: never longer than its input; every kept element passes the test and comes from the input; every input element that passes is kept |
| Api.Ids | src/services/api.ts:66 | `items.map(item => item.id)`: one id per item, in order, each the id of the item at the same position |
| Api.Max | src/services/api.ts:66 | `Math.max` over the ids: the result is one of the ids and no id exceeds it |
| Api.NewId | src/services/api.ts:65-67 | 1 for an empty collection; otherwise one more than some existing id and strictly greater than every existing id |
| Api.NewIdKeepsUnique | src/services/api.ts:65-67 | the allocated id is not already in use, so appending it keeps the collection's ids unique |
| Api.NewIdExamples | src/services/api.ts:65-67 | an empty collection gets id 1; ids 1 and 3 give 4 |
| Api.Seeded | src/services/api.ts:5-59 | after seeding a slot holds a list; a present key (even an empty list) is kept, an absent one receives the seed |
| Api.SeededIdempotent | src/services/api.ts:5-59 | seeding twice gives the same storage as seeding once |
| Api.SeedFactoryTotals | src/services/api.ts:15-57 | the seeded entries give factory totals 6500 / 3000 / 3500 |
| Api.SeedPersonIds | src/services/api.ts:7-12 | the seeded persons carry ids 1 to 4, which are unique, and the next person id is 5 |
| Api.SeedEntryIds | src/services/api.ts:16-57 | the seeded entries carry ids 1 to 5, which are unique, and the next entry id is 6 |
| Api.Store.constructor | src/services/api.ts:5-16 | the two storage slots as found when the application loads, each either absent or holding a list |
| Api.Store.Persons | src/services/api.ts:74 | a read of the `persons` key: the stored list, or the empty list when the key is absent |
| Api.Store.Entries | src/services/api.ts:99 | a read of the `expenseEntries` key: the stored list, or the empty list when the key is absent |
| Api.Store.InitializeLocalStorage | src/services/api.ts:5-59 | each key is written with its seed exactly when it was absent; unique ids in both collections are preserved |
| Api.Store.GetAllPersons | src/services/api.ts:71-78 | returns the stored persons, or the empty list when the key is absent |
| Api.Store.AddPerson | src/services/api.ts:80-93 | appends exactly one person at the end, with the given name and the id `getNewId` gives for the earlier persons (their maximum + 1, or 1 when there were none), so greater than every earlier id; earlier persons and the entry collection are unchanged; unique ids stay unique |
| Api.Store.GetAllExpenses | src/services/api.ts:96-103 | returns the stored entries, or the empty list when the key is absent |
| Api.Store.GetExpensesByPerson | src/services/api.ts:105-115 | returns exactly the stored entries with that `personId`, in stored order, as a subsequence of all entries |
| Api.ByPerson | src/services/api.ts:109-111 | every selected entry has the person's id, and every entry with that id is selected |
| Api.ByPersonExact | src/services/api.ts:109-111 | every selected entry has the person's id; every entry of the person is selected as often as it is stored, others never; the selection is a subsequence |
| Api.Store.AddExpenseEntry | src/services/api.ts:117-130 | appends exactly one entry at the end, carrying the caller's fields and the id `getNewId` gives for the earlier entries (their maximum + 1, or 1 when there were none), so greater than every earlier id; earlier entries and the person collection are unchanged; unique ids stay unique |
| Api.FindPerson | src/services/api.ts:139 | `find`: none exactly when no person has the id; otherwise the first person with that id |
| Api.PersonSummaryOf | src/services/api.ts:133-163 | an error exactly when no person has the id; otherwise the id and name of the first person with that id (the one `find` returns), credit and debit totals equal to the amounts summed over that person's Credit and Debit entries only (reference sum), and balance = credit - debit |
| Api.PersonSummaryIsolation | src/services/api.ts:140 | a person's summary depends only on that person's entries; adding another person's entry never changes it |
| Api.Store.GetPersonSummary | src/services/api.ts:133-163 | returns the person summary of the stored collections, or the not-found error |
| Api.Store.GetFactorySummary | src/services/api.ts:165-185 | returns the summary of every stored entry |
| Api.OfType | src/services/api.ts:171 | every selected entry has the requested type, and every entry of that type is selected |
| Api.Reduce | src/services/api.ts:172 | the `reduce` left fold from a starting value adds every amount to it: the start plus the reference right-to-left sum |
| Api.Total | src/services/api.ts:172 | the `reduce` from 0 is the reference sum of the amounts |
| Api.Summarize | src/services/api.ts:170-182 | the summary formula: balance = total credit - total debit (its totals are tied to the reference sum by SummarizeCorrect) |
| Api.SummarizeCorrect | src/services/api.ts:170-176 | total credit and total debit equal the amounts summed over the Credit and over the Debit entries (reference sum), and the balance is their difference |
| Api.SummarizeEmpty | src/services/api.ts:170-182 | an empty collection gives 0 / 0 / 0 |
| Api.TotalAppend | src/services/api.ts:172 | the `reduce` total of a concatenation is the sum of the totals of its parts |
| Api.SummarizeAppend | src/services/api.ts:170-182 | every field of the summary adds up over a split of the collection |
| Api.SummarizeAppendOne | src/services/api.ts:121-126 | recording one entry raises exactly the total of its type, by its amount |
| Api.CreditPlusDebit | src/services/api.ts:170-176 | credit total plus debit total is the total of all amounts |
| Api.SummarizePartition | src/services/api.ts:170-176 | the totals of what passes any test plus those of what fails it are the totals of the whole |
| DateFilter.Window | src/pages/FactorySummary.tsx:52-62 | reference filter: every kept entry lies inside the inclusive window (an absent bound not restricting), and every entry inside it is kept |
| DateFilter.Stepwise | src/pages/FactorySummary.tsx:50-62 | the start-bound step followed by the end-bound step, each run only when its bound is set (as also in src/components/PersonDetail.tsx:52-64), equals one pass with the whole window |
| DateFilter.WindowExact | src/pages/FactorySummary.tsx:52-62 | every kept entry is within both set bounds (inclusive); every loaded entry within them is kept as often as loaded; order is preserved |
| DateFilter.WindowUnbounded | src/pages/FactorySummary.tsx:50-62 | with both bounds empty the filtered list is the loaded list |
| DateFilter.WindowIdempotent | src/pages/FactorySummary.tsx:50-62 | filtering the filtered list again with the same bounds changes nothing |
| DateFilter.WindowConcat | src/pages/FactorySummary.tsx:52-62 | the filter distributes over concatenation of the loaded list |
| FactorySummaryPage.FactorySummaryView.constructor | src/pages/FactorySummary.tsx:16-21 | the initial page state: no entries, no summary, loading, both bounds empty |
| FactorySummaryPage.FactorySummaryView.FetchData | src/pages/FactorySummary.tsx:24-47 | loads every stored entry into both lists and the store's factory summary, and stops loading |
| FactorySummaryPage.FactorySummaryView.SetStartDate | src/pages/FactorySummary.tsx:209 | sets the start bound only |
| FactorySummaryPage.FactorySummaryView.SetEndDate | src/pages/FactorySummary.tsx:221 | sets the end bound only |
| FactorySummaryPage.FactorySummaryView.HandleFilter | src/pages/FactorySummary.tsx:49-80 | the filtered list is the window of the loaded list (never of the previous filtered list); the summary is the store's formula over it; with both bounds empty the filtered list is the loaded list and the summary is the formula over all of it; the loaded list and bounds are not modified |
| FactorySummaryPage.FactorySummaryView.ClearFilters | src/pages/FactorySummary.tsx:82-89 | empties both bounds, restores the filtered list to the loaded list and takes the store's factory summary |
| FactorySummaryPage.UnboundedFilterMatchesStore | src/pages/FactorySummary.tsx:24-80 | a page that is opened, loaded, then filtered with both bounds empty shows every stored entry and exactly the store's factory summary |
| FactorySummaryPage.FilteredSummaryPlusRest | src/pages/FactorySummary.tsx:67-79 | the filtered totals plus the totals of the entries outside the window are the unfiltered totals |
| PersonDetailView.PersonDetail.constructor | src/components/PersonDetail.tsx:17-23 | the initial view state for the given person: no transactions, no summary, loading, both bounds empty |
| PersonDetailView.PersonDetail.FetchData | src/components/PersonDetail.tsx:26-49 | for a known person, loads exactly that person's entries into both lists and the person summary; for an unknown one nothing changes and the view stays loading |
| PersonDetailView.PersonDetail.SetStartDate | src/components/PersonDetail.tsx:149 | sets the start bound only |
| PersonDetailView.PersonDetail.SetEndDate | src/components/PersonDetail.tsx:158 | sets the end bound only |
| PersonDetailView.PersonDetail.HandleFilter | src/components/PersonDetail.tsx:51-85 | the filtered list is the window of the loaded transactions; a loaded summary keeps its id and name and gets the filtered totals with balance = credit - debit; an absent summary stays absent; with both bounds empty the filtered list is the loaded transactions |
| PersonDetailView.PersonDetail.ClearFilters | src/components/PersonDetail.tsx:87-94 | empties both bounds, restores the filtered list to the loaded transactions and takes the store's person summary when the store gives one |
| PersonDetailView.FilteredTotalsOwnEntriesOnly | src/components/PersonDetail.tsx:30-35 | the filtered transactions of a person contain only that person's entries, date filtering commutes with selecting the person, and another person's entry changes nothing |
| PersonDetailView.UnboundedFilterMatchesStore | src/components/PersonDetail.tsx:69-84 | with no bounds, recomputing over the loaded transactions reproduces the store's person summary exactly |

## Left out

- Remote table store and fallback (`src/lib/supabase.ts`, `src/services/supabase.ts`): network client plumbing; `api.ts` itself uses device storage only.
- JSON serialisation, the 300 ms timers and promise wrapping: every store call and view transition is one atomic step.
- Concurrency: the lost update between overlapping read-modify-write appends and stale responses overwriting view state are not modelled.
- Fractional amounts and floating point: amounts are whole rupees; the add-transaction form accepts fractional amounts through `parseFloat` (`src/pages/AddTransaction.tsx:74`), and neither those nor the IEEE rounding of JavaScript numbers are modelled.
- Date parsing: `new Date(...)` is replaced by integer `YYYYMMDD` dates; malformed date strings (which compare as false in the code) are not modelled.
- Math.max spread: the engine's argument-count limit on very large collections is not modelled.
- Form validation in `src/pages/AddTransaction.tsx` (zod schema, `parseFloat`, the trimmed-name check): it stays outside the store, which accepts any name and amount.
- Rendering, charts, toasts and `src/lib/format.ts` (`Intl` formatting): presentation only.
