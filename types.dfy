/** The ledger's record types: persons, expense entries and the two summaries
    derived from them, plus the Option/Result wrappers the operations return. */
module Types {

  datatype Option<+T> = None | Some(value: T)

  /** Why a store operation produced no value. */
  datatype Error = PersonNotFound

  datatype Result<+T> = Ok(value: T) | Err(error: Error)

  /** A calendar date written `YYYY-MM-DD`, encoded as the integer YYYYMMDD.
      For well-formed dates this encoding orders exactly as the dates do. */
  type Date = int

  /** Amounts are whole rupees, as the seed data and the display treat them;
      fractional amounts (JavaScript numbers) are not modelled. */
  type Amount = int

  datatype Person = Person(id: int, name: string)

  datatype EntryType = Debit | Credit

  datatype ExpenseEntry = ExpenseEntry(
    id: int,
    personId: int,
    date: Date,
    amount: Amount,
    kind: EntryType,
    description: Option<string>)

  /** What a caller hands to the store to record: an entry without its id. */
  datatype NewEntry = NewEntry(
    personId: int,
    date: Date,
    amount: Amount,
    kind: EntryType,
    description: Option<string>)

  datatype FactorySummary = FactorySummary(totalCredit: int, totalDebit: int, balance: int)

  datatype PersonSummary = PersonSummary(
    id: int,
    name: string,
    totalCredit: int,
    totalDebit: int,
    balance: int)
}
