/** The persisted document and the mutations the commands apply to it. */
module Ledger {

  /** An expense or income record: who recorded it, how much, what for, and
      when (milliseconds since the epoch, stamped at recording time). */
  datatype Entry = Entry(userId: int, amount: real, description: string, date: int)

  /** A saving goal. */
  datatype Goal = Goal(amount: real)

  /** The whole persisted state. Records keep their recording order. */
  datatype Document = Document(expenses: seq<Entry>, incomes: seq<Entry>, savingGoals: seq<Goal>)

  /** The two append-only ledgers. */
  datatype Book = Expenses | Incomes {
    function Other(): Book {
      match this
      case Expenses => Incomes
      case Incomes => Expenses
    }
  }

  /** The document with all three collections empty. */
  const Empty: Document := Document([], [], [])

  function Entries(doc: Document, book: Book): seq<Entry> {
    match book
    case Expenses => doc.expenses
    case Incomes => doc.incomes
  }

  predicate AllPositive(es: seq<Entry>) {
    forall i :: 0 <= i < |es| ==> es[i].amount > 0.0
  }

  /** Every stored amount is above zero: parsing guarantees it for every
      record and goal a command creates (a loaded file is not re-checked). */
  predicate Valid(doc: Document) {
    && AllPositive(doc.expenses)
    && AllPositive(doc.incomes)
    && forall i :: 0 <= i < |doc.savingGoals| ==> doc.savingGoals[i].amount > 0.0
  }

  /** `data.expenses.push(...)` / `data.incomes.push(...)`: the chosen ledger
      grows by exactly the new record at its end; the other ledger and the
      goals are unchanged. */
  function Record(doc: Document, book: Book, e: Entry): (r: Document)
    ensures |Entries(r, book)| == |Entries(doc, book)| + 1
    ensures Entries(r, book)[|Entries(doc, book)|] == e
    ensures Entries(r, book)[..|Entries(doc, book)|] == Entries(doc, book)
    ensures Entries(r, book.Other()) == Entries(doc, book.Other())
    ensures r.savingGoals == doc.savingGoals
  {
    match book
    case Expenses => doc.(expenses := doc.expenses + [e])
    case Incomes => doc.(incomes := doc.incomes + [e])
  }

  /** `data.savingGoals = [{ amount }]`: the goals are replaced wholesale by
      the one new goal; both ledgers are unchanged. */
  function SetGoal(doc: Document, amount: real): (r: Document)
    ensures r.savingGoals == [Goal(amount)]
    ensures r.expenses == doc.expenses && r.incomes == doc.incomes
  {
    doc.(savingGoals := [Goal(amount)])
  }

  /** Setting a goal twice keeps only the last one. */
  lemma SetGoalTwice(doc: Document, first: real, second: real)
    ensures SetGoal(SetGoal(doc, first), second) == SetGoal(doc, second)
  {
  }

  /** Recording a positive amount keeps every amount positive. */
  lemma RecordPreservesValid(doc: Document, book: Book, e: Entry)
    requires Valid(doc) && e.amount > 0.0
    ensures Valid(Record(doc, book, e))
  {
  }

  /** Setting a positive goal keeps every amount positive. */
  lemma SetGoalPreservesValid(doc: Document, amount: real)
    requires Valid(doc) && amount > 0.0
    ensures Valid(SetGoal(doc, amount))
  {
  }
}
