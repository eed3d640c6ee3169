/** The store accessor: what `readData` makes of the stored blob and what
    `writeData` puts back. The byte format (JSON text) is not modelled; a
    blob is either absent/unparseable (`None`) or an object whose three
    collections may each be missing. */
module Store {
  import opened Wrappers
  import opened Ledger

  /** A parsed stored object; `None` for a field that is missing (or falsy). */
  datatype PartialDoc = PartialDoc(
    expenses: Option<seq<Entry>>,
    incomes: Option<seq<Entry>>,
    savingGoals: Option<seq<Goal>>)

  /** The stored blob: `None` when the file is absent or is not parseable. */
  type Blob = Option<PartialDoc>

  function OrEmpty<T>(field: Option<seq<T>>): seq<T> {
    match field
    case None => []
    case Some(s) => s
  }

  /** `readData`: an absent or unparseable blob gives the empty document;
      otherwise each missing collection defaults to empty and each present
      collection is taken as stored. */
  function Load(blob: Blob): (doc: Document)
    ensures blob.None? ==> doc == Empty
    ensures blob.Some? ==>
      && (blob.value.expenses.None? ==> doc.expenses == [])
      && (blob.value.expenses.Some? ==> doc.expenses == blob.value.expenses.value)
      && (blob.value.incomes.None? ==> doc.incomes == [])
      && (blob.value.incomes.Some? ==> doc.incomes == blob.value.incomes.value)
      && (blob.value.savingGoals.None? ==> doc.savingGoals == [])
      && (blob.value.savingGoals.Some? ==> doc.savingGoals == blob.value.savingGoals.value)
  {
    match blob
    case None => Empty
    case Some(p) => Document(OrEmpty(p.expenses), OrEmpty(p.incomes), OrEmpty(p.savingGoals))
  }

  /** `writeData`: the whole document is written with all three collections
      present, overwriting what was stored. */
  function Save(doc: Document): (blob: Blob)
    ensures blob.Some?
    ensures blob.value.expenses.Some? && blob.value.incomes.Some? && blob.value.savingGoals.Some?
  {
    Some(PartialDoc(Some(doc.expenses), Some(doc.incomes), Some(doc.savingGoals)))
  }

  /** Loading a saved document gives it back unchanged. */
  lemma LoadSave(doc: Document)
    ensures Load(Save(doc)) == doc
  {
  }

  /** Saving what was just loaded from a saved blob rewrites the same blob:
      `save(load())` is idempotent. */
  lemma SaveLoadIdempotent(blob: Blob)
    ensures Save(Load(Save(Load(blob)))) == Save(Load(blob))
  {
    LoadSave(Load(blob));
  }

  /** A blob that already holds all three collections is rewritten unchanged. */
  lemma SaveLoadFillsIn(blob: Blob)
    requires blob.Some?
    requires blob.value.expenses.Some? && blob.value.incomes.Some? && blob.value.savingGoals.Some?
    ensures Save(Load(blob)) == blob
  {
  }
}
