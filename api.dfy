/** The record store of `src/services/api.ts`: two collections held under the
    device-storage keys `persons` and `expenseEntries`, seeded once, grown by
    read-modify-write appends with max + 1 ids, and summarised by the
    credit/debit/balance formula. Each call is one atomic step. */
module Api {
  import opened Types
  import opened Sequences

  // ---------------------------------------------------------------------
  // Seed data
  // ---------------------------------------------------------------------

  /** The four persons written when the `persons` key is absent. */
  function SeedPersons(): seq<Person>
  {
    [ Person(1, "John Smith (Worker)"),
      Person(2, "Jane Doe (Shareholder)"),
      Person(3, "Bob Johnson (Supplier)"),
      Person(4, "Alice Williams (Manager)") ]
  }

  /** The five entries written when the `expenseEntries` key is absent. */
  function SeedEntries(): seq<ExpenseEntry>
  {
    [ ExpenseEntry(1, 1, 20230510, 1500, Credit, Some("Monthly salary")),
      ExpenseEntry(2, 2, 20230515, 3000, Credit, Some("Dividend payment")),
      ExpenseEntry(3, 3, 20230520, 2500, Debit, Some("Raw materials purchase")),
      ExpenseEntry(4, 4, 20230525, 2000, Credit, Some("Monthly salary")),
      ExpenseEntry(5, 1, 20230601, 500, Debit, Some("Advance payment")) ]
  }

  /** A storage slot after seeding: an absent key receives the seed, a present
      one (even holding an empty list) is left alone. */
  function Seeded<T>(slot: Option<seq<T>>, seed: seq<T>): (r: Option<seq<T>>)
    ensures r.Some?
    ensures slot.Some? ==> r == slot
    ensures slot.None? ==> r == Some(seed)
  {
    if slot.None? then Some(seed) else slot
  }

  /** Seeding twice is seeding once. */
  lemma SeededIdempotent<T>(slot: Option<seq<T>>, seed: seq<T>)
    ensures Seeded(Seeded(slot, seed), seed) == Seeded(slot, seed)
  {
  }

  // ---------------------------------------------------------------------
  // Identity allocation
  // ---------------------------------------------------------------------

  /** `items.map(item => item.id)`. */
  function Ids<T>(items: seq<T>, id: T -> int): (ids: seq<int>)
    ensures |ids| == |items|
    ensures forall i :: 0 <= i < |items| ==> ids[i] == id(items[i])
  {
    seq(|items|, i requires 0 <= i < |items| => id(items[i]))
  }

  function PersonIds(ps: seq<Person>): seq<int>
  {
    Ids(ps, (p: Person) => p.id)
  }

  function EntryIds(es: seq<ExpenseEntry>): seq<int>
  {
    Ids(es, (e: ExpenseEntry) => e.id)
  }

  /** The largest id, as `Math.max(...ids)` computes it. */
  function Max(ids: seq<int>): (m: int)
    requires ids != []
    ensures m in ids
    ensures forall i :: 0 <= i < |ids| ==> ids[i] <= m
  {
    if |ids| == 1 then ids[0]
    else
      var rest := Max(ids[1..]);
      if ids[0] >= rest then ids[0] else rest
  }

  /** `getNewId`: 1 for an empty collection, otherwise one more than the
      largest id, so it exceeds every id already present. */
  function NewId(ids: seq<int>): (id: int)
    ensures ids == [] ==> id == 1
    ensures ids != [] ==> id - 1 in ids
    ensures forall i :: 0 <= i < |ids| ==> ids[i] < id
  {
    if |ids| > 0 then Max(ids) + 1 else 1
  }

  predicate UniqueIds(ids: seq<int>)
  {
    forall i, j :: 0 <= i < j < |ids| ==> ids[i] != ids[j]
  }

  /** Appending the allocated id keeps the ids of a collection unique. */
  lemma NewIdKeepsUnique(ids: seq<int>)
    requires UniqueIds(ids)
    ensures NewId(ids) !in ids
    ensures UniqueIds(ids + [NewId(ids)])
  {
  }

  /** The two examples of the allocator's documented behaviour. */
  lemma NewIdExamples()
    ensures NewId([]) == 1
    ensures NewId([1, 3]) == 4
  {
  }

  // ---------------------------------------------------------------------
  // Reading entries
  // ---------------------------------------------------------------------

  function BelongsTo(personId: int): ExpenseEntry -> bool
  {
    (e: ExpenseEntry) => e.personId == personId
  }

  /** `entries.filter(entry => entry.personId === personId)`: every selected
      entry is the person's, and every entry of the person is selected. */
  function ByPerson(es: seq<ExpenseEntry>, personId: int): (r: seq<ExpenseEntry>)
    ensures forall i :: 0 <= i < |r| ==> r[i].personId == personId
    ensures forall i :: 0 <= i < |es| && es[i].personId == personId ==> es[i] in r
  {
    Filter(es, BelongsTo(personId))
  }

  /** The entries of one person are exactly the stored entries with that
      `personId`, each as often as stored, in stored order. */
  lemma ByPersonExact(es: seq<ExpenseEntry>, personId: int, e: ExpenseEntry)
    ensures forall i :: 0 <= i < |ByPerson(es, personId)| ==> ByPerson(es, personId)[i].personId == personId
    ensures multiset(ByPerson(es, personId))[e] == if e.personId == personId then multiset(es)[e] else 0
    ensures IsSubsequence(ByPerson(es, personId), es)
  {
    FilterMultiplicity(es, BelongsTo(personId), e);
    FilterIsSubsequence(es, BelongsTo(personId));
  }

  // ---------------------------------------------------------------------
  // Aggregation
  // ---------------------------------------------------------------------

  function IsOfType(t: EntryType): ExpenseEntry -> bool
  {
    (e: ExpenseEntry) => e.kind == t
  }

  /** `entries.filter(entry => entry.type === t)`: every selected entry has
      type `t`, and every entry of type `t` is selected. */
  function OfType(es: seq<ExpenseEntry>, t: EntryType): (r: seq<ExpenseEntry>)
    ensures forall i :: 0 <= i < |r| ==> r[i].kind == t
    ensures forall i :: 0 <= i < |es| && es[i].kind == t ==> es[i] in r
  {
    Filter(es, IsOfType(t))
  }

  /** Reference definition: the amounts of `es`, summed from the right. */
  ghost function Sum(es: seq<ExpenseEntry>): int
  {
    if es == [] then 0 else es[0].amount + Sum(es[1..])
  }

  /** `reduce((sum, entry) => sum + entry.amount, acc)`: a left fold, which
      adds the amounts to the starting value. */
  function Reduce(acc: int, es: seq<ExpenseEntry>): (r: int)
    ensures r == acc + Sum(es)
    decreases |es|
  {
    if es == [] then acc else Reduce(acc + es[0].amount, es[1..])
  }

  /** The `reduce` started at 0: the sum of the amounts. */
  function Total(es: seq<ExpenseEntry>): (t: int)
    ensures t == Sum(es)
  {
    Reduce(0, es)
  }

  /** The credit/debit/balance formula shared by the store and both views. */
  function Summarize(es: seq<ExpenseEntry>): (r: FactorySummary)
    ensures r.balance == r.totalCredit - r.totalDebit
  {
    var totalCredit := Total(OfType(es, Credit));
    var totalDebit := Total(OfType(es, Debit));
    FactorySummary(totalCredit, totalDebit, totalCredit - totalDebit)
  }

  /** Reference definition: the amounts of the entries of type `t`, summed
      from the right. */
  ghost function AmountOf(es: seq<ExpenseEntry>, t: EntryType): int
  {
    if es == [] then 0 else (if es[0].kind == t then es[0].amount else 0) + AmountOf(es[1..], t)
  }

  lemma {:induction false} TotalAppend(a: seq<ExpenseEntry>, b: seq<ExpenseEntry>)
    ensures Total(a + b) == Total(a) + Total(b)
  {
    if a == [] {
      assert a + b == b;
    } else {
      assert (a + b)[1..] == a[1..] + b;
      TotalAppend(a[1..], b);
    }
  }

  /** Summaries add up over a split of the collection. */
  lemma SummarizeAppend(a: seq<ExpenseEntry>, b: seq<ExpenseEntry>)
    ensures Summarize(a + b).totalCredit == Summarize(a).totalCredit + Summarize(b).totalCredit
    ensures Summarize(a + b).totalDebit == Summarize(a).totalDebit + Summarize(b).totalDebit
    ensures Summarize(a + b).balance == Summarize(a).balance + Summarize(b).balance
  {
    FilterConcat(a, b, IsOfType(Credit));
    FilterConcat(a, b, IsOfType(Debit));
    TotalAppend(OfType(a, Credit), OfType(b, Credit));
    TotalAppend(OfType(a, Debit), OfType(b, Debit));
  }

  /** One entry counts toward its own type only. */
  lemma SummarizeSingle(e: ExpenseEntry)
    ensures Summarize([e]).totalCredit == if e.kind == Credit then e.amount else 0
    ensures Summarize([e]).totalDebit == if e.kind == Debit then e.amount else 0
  {
    assert [e][1..] == [];
    assert OfType([e], Credit) == if e.kind == Credit then [e] else [];
    assert OfType([e], Debit) == if e.kind == Debit then [e] else [];
    assert Reduce(0, [e]) == Reduce(e.amount, []);
  }

  /** Recording one more entry moves exactly one total, by the entry's amount. */
  lemma SummarizeAppendOne(es: seq<ExpenseEntry>, e: ExpenseEntry)
    ensures Summarize(es + [e]).totalCredit == Summarize(es).totalCredit + (if e.kind == Credit then e.amount else 0)
    ensures Summarize(es + [e]).totalDebit == Summarize(es).totalDebit + (if e.kind == Debit then e.amount else 0)
  {
    SummarizeAppend(es, [e]);
    SummarizeSingle(e);
  }

  /** Aggregation correctness: `totalCredit` and `totalDebit` are the sums of
      the amounts restricted to each type, and the balance is their difference. */
  lemma {:induction false} SummarizeCorrect(es: seq<ExpenseEntry>)
    ensures Summarize(es).totalCredit == AmountOf(es, Credit)
    ensures Summarize(es).totalDebit == AmountOf(es, Debit)
    ensures Summarize(es).balance == AmountOf(es, Credit) - AmountOf(es, Debit)
  {
    if es != [] {
      SummarizeCorrect(es[1..]);
      SummarizeAppend([es[0]], es[1..]);
      SummarizeSingle(es[0]);
      assert [es[0]] + es[1..] == es;
    }
  }

  /** An empty collection sums to 0/0/0. */
  lemma SummarizeEmpty()
    ensures Summarize([]) == FactorySummary(0, 0, 0)
  {
  }

  /** Every entry is either a credit or a debit, so the two totals together
      account for every amount. */
  lemma {:induction false} CreditPlusDebit(es: seq<ExpenseEntry>)
    ensures Summarize(es).totalCredit + Summarize(es).totalDebit == Total(es)
  {
    if es != [] {
      CreditPlusDebit(es[1..]);
      SummarizeAppend([es[0]], es[1..]);
      TotalAppend([es[0]], es[1..]);
      assert [es[0]] + es[1..] == es;
    }
  }

  /** Splitting a collection by any test splits its summary: the totals of
      what passes plus the totals of what fails are the totals of the whole. */
  lemma {:induction false} SummarizePartition(es: seq<ExpenseEntry>, keep: ExpenseEntry -> bool, drop: ExpenseEntry -> bool)
    requires forall i :: 0 <= i < |es| ==> drop(es[i]) == !keep(es[i])
    ensures Summarize(es).totalCredit == Summarize(Filter(es, keep)).totalCredit + Summarize(Filter(es, drop)).totalCredit
    ensures Summarize(es).totalDebit == Summarize(Filter(es, keep)).totalDebit + Summarize(Filter(es, drop)).totalDebit
  {
    if es != [] {
      SummarizePartition(es[1..], keep, drop);
      var head := [es[0]];
      var kept, dropped := Filter(es[1..], keep), Filter(es[1..], drop);
      assert head + es[1..] == es;
      SummarizeAppend(head, es[1..]);
      if keep(es[0]) {
        assert Filter(es, keep) == head + kept;
        assert Filter(es, drop) == dropped;
        SummarizeAppend(head, kept);
      } else {
        assert Filter(es, keep) == kept;
        assert Filter(es, drop) == head + dropped;
        SummarizeAppend(head, dropped);
      }
    }
  }

  // ---------------------------------------------------------------------
  // Person lookup and person summary
  // ---------------------------------------------------------------------

  /** `persons.find(p => p.id === personId)`: the first person with that id. */
  function FindPerson(ps: seq<Person>, personId: int): (r: Option<Person>)
    ensures r.None? <==> forall i :: 0 <= i < |ps| ==> ps[i].id != personId
    ensures r.Some? ==> exists i :: 0 <= i < |ps| && ps[i] == r.value && r.value.id == personId
                                    && forall j :: 0 <= j < i ==> ps[j].id != personId
  {
    if ps == [] then None
    else if ps[0].id == personId then Some(ps[0])
    else
      var r := FindPerson(ps[1..], personId);
      if r.Some? then
        ghost var i :| 0 <= i < |ps[1..]| && ps[1..][i] == r.value && r.value.id == personId
                       && forall j :: 0 <= j < i ==> ps[1..][j].id != personId;
        assert ps[i + 1] == r.value;
        assert forall j :: 0 <= j < i + 1 ==> ps[j].id != personId by {
          forall j | 0 <= j < i + 1 ensures ps[j].id != personId {
            if j > 0 { assert ps[j] == ps[1..][j - 1]; }
          }
        }
        r
      else
        r
  }

  /** `getPersonSummary`: the found person's id and name with the totals over
      that person's entries; no such person is an error. */
  function PersonSummaryOf(ps: seq<Person>, es: seq<ExpenseEntry>, personId: int): (r: Result<PersonSummary>)
    ensures r.Err? <==> forall i :: 0 <= i < |ps| ==> ps[i].id != personId
    ensures r.Err? ==> r.error == PersonNotFound
    ensures r.Ok? ==> r.value.id == personId && FindPerson(ps, personId) == Some(Person(r.value.id, r.value.name))
    ensures r.Ok? ==> r.value.totalCredit == AmountOf(ByPerson(es, personId), Credit)
    ensures r.Ok? ==> r.value.totalDebit == AmountOf(ByPerson(es, personId), Debit)
    ensures r.Ok? ==> r.value.balance == r.value.totalCredit - r.value.totalDebit
  {
    var totals := Summarize(ByPerson(es, personId));
    SummarizeCorrect(ByPerson(es, personId));
    match FindPerson(ps, personId)
    case None => Err(PersonNotFound)
    case Some(p) => Ok(PersonSummary(p.id, p.name, totals.totalCredit, totals.totalDebit,
                                     totals.totalCredit - totals.totalDebit))
  }

  /** Per-person isolation: only the person's own entries matter, and an entry
      of another person never changes the summary. */
  lemma PersonSummaryIsolation(ps: seq<Person>, es: seq<ExpenseEntry>, personId: int, other: ExpenseEntry)
    requires other.personId != personId
    ensures PersonSummaryOf(ps, ByPerson(es, personId), personId) == PersonSummaryOf(ps, es, personId)
    ensures PersonSummaryOf(ps, es + [other], personId) == PersonSummaryOf(ps, es, personId)
  {
    var own := ByPerson(es, personId);
    assert ByPerson(own, personId) == own by {
      FilterIdempotent(es, BelongsTo(personId));
    }
    assert ByPerson(es + [other], personId) == own by {
      FilterConcat(es, [other], BelongsTo(personId));
      assert ByPerson([other], personId) == [];
      assert own + [] == own;
    }
    SameSelectionSameSummary(ps, own, es, personId);
    SameSelectionSameSummary(ps, es + [other], es, personId);
  }

  /** The person summary reads the entries only through the person's selection. */
  lemma SameSelectionSameSummary(ps: seq<Person>, a: seq<ExpenseEntry>, b: seq<ExpenseEntry>, personId: int)
    requires ByPerson(a, personId) == ByPerson(b, personId)
    ensures PersonSummaryOf(ps, a, personId) == PersonSummaryOf(ps, b, personId)
  {
  }

  // ---------------------------------------------------------------------
  // The seeded store
  // ---------------------------------------------------------------------

  /** The seeded entries give factory totals 6500 / 3000 / 3500. */
  lemma SeedFactoryTotals()
    ensures Summarize(SeedEntries()) == FactorySummary(6500, 3000, 3500)
  {
    SummarizeCorrect(SeedEntries());
  }

  /** The seeded persons carry ids 1 to 4, so they are unique and the next is 5. */
  lemma SeedPersonIds()
    ensures PersonIds(SeedPersons()) == [1, 2, 3, 4]
    ensures UniqueIds(PersonIds(SeedPersons())) && NewId(PersonIds(SeedPersons())) == 5
  {
    var ps, ids := SeedPersons(), PersonIds(SeedPersons());
    assert |ids| == 4;
    assert ids[0] == ps[0].id && ids[1] == ps[1].id && ids[2] == ps[2].id && ids[3] == ps[3].id;
    assert ids == [1, 2, 3, 4];
  }

  /** The seeded entries carry ids 1 to 5, so they are unique and the next is 6. */
  lemma SeedEntryIds()
    ensures EntryIds(SeedEntries()) == [1, 2, 3, 4, 5]
    ensures UniqueIds(EntryIds(SeedEntries())) && NewId(EntryIds(SeedEntries())) == 6
  {
    var es, ids := SeedEntries(), EntryIds(SeedEntries());
    assert |ids| == 5;
    assert ids[0] == es[0].id && ids[1] == es[1].id && ids[2] == es[2].id;
    assert ids[3] == es[3].id && ids[4] == es[4].id;
    assert ids == [1, 2, 3, 4, 5];
  }

  // ---------------------------------------------------------------------
  // The store
  // ---------------------------------------------------------------------

  /** Device storage holding the two collections; `None` is an absent key. */
  class Store {
    var persons: Option<seq<Person>>
    var expenseEntries: Option<seq<ExpenseEntry>>

    /** Storage as the application finds it when it loads. */
    constructor (persons: Option<seq<Person>>, expenseEntries: Option<seq<ExpenseEntry>>)
      ensures this.persons == persons && this.expenseEntries == expenseEntries
    {
      this.persons := persons;
      this.expenseEntries := expenseEntries;
    }

    /** What a read of `persons` yields: the stored list, or `[]` when absent. */
    function Persons(): (r: seq<Person>)
      reads this
      ensures persons.None? ==> r == []
      ensures persons.Some? ==> r == persons.value
    {
      if persons.Some? then persons.value else []
    }

    /** What a read of `expenseEntries` yields: the stored list, or `[]` when absent. */
    function Entries(): (r: seq<ExpenseEntry>)
      reads this
      ensures expenseEntries.None? ==> r == []
      ensures expenseEntries.Some? ==> r == expenseEntries.value
    {
      if expenseEntries.Some? then expenseEntries.value else []
    }

    /** Both collections have unique ids. */
    predicate UniquelyIdentified()
      reads this
    {
      UniqueIds(PersonIds(Persons())) && UniqueIds(EntryIds(Entries()))
    }

    /** `initializeLocalStorage`: write each key only when it is absent. */
    method InitializeLocalStorage()
      modifies this
      ensures persons == Seeded(old(persons), SeedPersons())
      ensures expenseEntries == Seeded(old(expenseEntries), SeedEntries())
      ensures old(UniquelyIdentified()) ==> UniquelyIdentified()
    {
      if persons.None? {
        persons := Some(SeedPersons());
      }
      if expenseEntries.None? {
        expenseEntries := Some(SeedEntries());
      }
      SeedPersonIds();
      SeedEntryIds();
    }

    method GetAllPersons() returns (r: seq<Person>)
      ensures r == Persons()
    {
      r := Persons();
    }

    /** `addPerson`: read the list, push one person with a fresh id, write it back. */
    method AddPerson(name: string) returns (p: Person)
      modifies this
      ensures p.name == name
      ensures p.id == NewId(PersonIds(old(Persons())))
      ensures forall q :: q in old(Persons()) ==> q.id < p.id
      ensures persons == Some(old(Persons()) + [p])
      ensures expenseEntries == old(expenseEntries)
      ensures old(UniquelyIdentified()) ==> UniquelyIdentified()
    {
      var list := Persons();
      p := Person(NewId(PersonIds(list)), name);
      if UniqueIds(PersonIds(list)) {
        NewIdKeepsUnique(PersonIds(list));
        assert PersonIds(list + [p]) == PersonIds(list) + [p.id];
      }
      list := list + [p];
      persons := Some(list);
    }

    method GetAllExpenses() returns (r: seq<ExpenseEntry>)
      ensures r == Entries()
    {
      r := Entries();
    }

    /** `getExpensesByPerson`: the stored entries of that person, in stored order. */
    method GetExpensesByPerson(personId: int) returns (r: seq<ExpenseEntry>)
      ensures r == ByPerson(Entries(), personId)
      ensures forall i :: 0 <= i < |r| ==> r[i].personId == personId
      ensures forall i :: 0 <= i < |Entries()| && Entries()[i].personId == personId ==> Entries()[i] in r
      ensures IsSubsequence(r, Entries())
    {
      r := ByPerson(Entries(), personId);
      FilterIsSubsequence(Entries(), BelongsTo(personId));
    }

    /** `addExpenseEntry`: read the list, push the caller's entry with a fresh
        id, write it back. */
    method AddExpenseEntry(entry: NewEntry) returns (e: ExpenseEntry)
      modifies this
      ensures e == ExpenseEntry(e.id, entry.personId, entry.date, entry.amount, entry.kind, entry.description)
      ensures e.id == NewId(EntryIds(old(Entries())))
      ensures forall x :: x in old(Entries()) ==> x.id < e.id
      ensures expenseEntries == Some(old(Entries()) + [e])
      ensures persons == old(persons)
      ensures old(UniquelyIdentified()) ==> UniquelyIdentified()
    {
      var list := Entries();
      e := ExpenseEntry(NewId(EntryIds(list)), entry.personId, entry.date, entry.amount, entry.kind, entry.description);
      if UniqueIds(EntryIds(list)) {
        NewIdKeepsUnique(EntryIds(list));
        assert EntryIds(list + [e]) == EntryIds(list) + [e.id];
      }
      list := list + [e];
      expenseEntries := Some(list);
    }

    method GetPersonSummary(personId: int) returns (r: Result<PersonSummary>)
      ensures r == PersonSummaryOf(Persons(), Entries(), personId)
    {
      r := PersonSummaryOf(Persons(), Entries(), personId);
    }

    method GetFactorySummary() returns (r: FactorySummary)
      ensures r == Summarize(Entries())
    {
      r := Summarize(Entries());
    }
  }
}
