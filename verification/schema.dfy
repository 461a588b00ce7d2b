/**
 * The expense document schema: which paths are required, the category
 * enumeration and the two create-time defaults. Creating a document either
 * yields a well-formed record or reports the set of paths that failed.
 */
module ExpenseSchema {
  import opened Common

  /** The values the `category` path accepts on create. */
  const Categories: seq<string> := ["Food", "Transport", "Bills", "Entertainment", "Health", "Other"]

  /** The category stored when a create omits it. */
  const DefaultCategory: string := "Other"

  /**
   * A stored expense document. `category` is text: create only admits the six
   * enumerated values, but an update stores whatever text it is given.
   */
  datatype Expense = Expense(
    id: Id,
    title: string,
    amount: int,
    category: string,
    date: Date,
    description: Option<string>)

  /** A create or update request body: every schema path may be omitted. */
  datatype Payload = Payload(
    title: Option<string>,
    amount: Option<int>,
    category: Option<string>,
    date: Option<Date>,
    description: Option<string>)

  /** The schema paths that carry a validator. */
  datatype Path = TitlePath | AmountPath | CategoryPath

  /** Outcome of validating a create body. */
  datatype Creation = Created(expense: Expense) | Rejected(failed: set<Path>)

  /** A present, non-empty string passes the `required` validator of a String path. */
  predicate TitlePasses(p: Payload) {
    p.title.Some? && p.title.value != ""
  }

  /** Any present number passes the `required` validator of a Number path, zero included. */
  predicate AmountPasses(p: Payload) {
    p.amount.Some?
  }

  /** The enum validator passes an omitted category (the default applies) or an enumerated one. */
  predicate CategoryPasses(p: Payload) {
    p.category.None? || p.category.value in Categories
  }

  /** A document every create-time validator accepts. */
  predicate WellFormed(e: Expense) {
    e.title != "" && e.category in Categories
  }

  /**
   * Validates a create body and applies the defaults; `id` is the identifier the
   * store assigns and `now` the creation instant. Every failing validator is
   * reported, not only the first one.
   */
  function Create(p: Payload, id: Id, now: Date): (r: Creation)
    ensures r.Created? <==> TitlePasses(p) && AmountPasses(p) && CategoryPasses(p)
    ensures r.Rejected? ==> r.failed != {}
    ensures r.Rejected? ==> (TitlePath in r.failed <==> p.title.None? || p.title.value == "")
    ensures r.Rejected? ==> (AmountPath in r.failed <==> p.amount.None?)
    ensures r.Rejected? ==> (CategoryPath in r.failed <==> p.category.Some? && p.category.value !in Categories)
    ensures r.Created? ==> WellFormed(r.expense) && r.expense.id == id
    ensures r.Created? ==> r.expense.title == p.title.value && r.expense.amount == p.amount.value
    ensures r.Created? ==> r.expense.category == (if p.category.Some? then p.category.value else "Other")
    ensures r.Created? ==> r.expense.date == (if p.date.Some? then p.date.value else now)
    ensures r.Created? ==> r.expense.description == p.description
  {
    var failed :=
      (if TitlePasses(p) then {} else {TitlePath})
      + (if AmountPasses(p) then {} else {AmountPath})
      + (if CategoryPasses(p) then {} else {CategoryPath});
    if failed == {} then
      Created(Expense(id, p.title.value, p.amount.value, p.category.GetOr(DefaultCategory),
                      p.date.GetOr(now), p.description))
    else
      Rejected(failed)
  }

  /** The body that spells out every field of `e`. */
  function BodyOf(e: Expense): Payload {
    Payload(Some(e.title), Some(e.amount), Some(e.category), Some(e.date), e.description)
  }

  /**
   * Writes a body over a document the way an update does: every path the body
   * carries replaces the stored value, every other path keeps it, and nothing
   * is validated.
   */
  function Merge(e: Expense, p: Payload): (r: Expense)
    ensures r.id == e.id
    ensures p.title.None? ==> r.title == e.title
    ensures p.amount.None? ==> r.amount == e.amount
    ensures p.category.None? ==> r.category == e.category
    ensures p.date.None? ==> r.date == e.date
    ensures p.description.None? ==> r.description == e.description
    ensures p.title.Some? ==> r.title == p.title.value
    ensures p.amount.Some? ==> r.amount == p.amount.value
    ensures p.category.Some? ==> r.category == p.category.value
    ensures p.date.Some? ==> r.date == p.date.value
    ensures p.description.Some? ==> r.description == p.description
  {
    Expense(
      e.id,
      p.title.GetOr(e.title),
      p.amount.GetOr(e.amount),
      p.category.GetOr(e.category),
      p.date.GetOr(e.date),
      if p.description.Some? then p.description else e.description)
  }

  /** Creating from the full body of a well-formed document rebuilds it, whatever the clock says. */
  lemma CreateFromBodyOf(e: Expense, now: Date)
    requires WellFormed(e)
    ensures Create(BodyOf(e), e.id, now) == Created(e)
  {
  }

  /** Merging a document's own body changes nothing, and merging the empty body changes nothing. */
  lemma MergeNeutral(e: Expense)
    ensures Merge(e, BodyOf(e)) == e
    ensures Merge(e, Payload(None, None, None, None, None)) == e
  {
  }

  /** Merging the same body twice is merging it once. */
  lemma MergeIdempotent(e: Expense, p: Payload)
    ensures Merge(Merge(e, p), p) == Merge(e, p)
  {
  }

  /** Merge skips the validators: an update may store an unlisted category or an empty title. */
  lemma MergeSkipsValidation(e: Expense)
    ensures !WellFormed(Merge(e, Payload(Some(""), None, Some("Vehicles"), None, None)))
  {
    assert "Vehicles" !in Categories;
  }
}
