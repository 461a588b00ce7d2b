/**
 * The list endpoint's query: optional `category`, `startDate`, `endDate`,
 * `minAmount` and `maxAmount` parameters become a filter document that the
 * store matches each expense against.
 */
module ListFilter {
  import opened Common
  import opened ExpenseSchema
  import Ordering

  /** Query-string parameters as received; `None` is a parameter that was not sent. */
  datatype Query = Query(
    category: Option<string>,
    startDate: Option<string>,
    endDate: Option<string>,
    minAmount: Option<string>,
    maxAmount: Option<string>)

  /** The query with no parameters. */
  const NoQuery: Query := Query(None, None, None, None, None)

  /** How parameter text becomes a date (`new Date`) and a number (`Number`); supplied by the caller. */
  datatype Coercion = Coercion(toDate: string -> Date, toNumber: string -> int)

  /** A parameter counts only when it is truthy: sent and not the empty string. */
  predicate Given(o: Option<string>) {
    o.Some? && o.value != ""
  }

  /** An operator object: `$gte` and `$lte`, each inclusive and each optional. */
  datatype Bounds = Bounds(gte: Option<int>, lte: Option<int>)

  /** A filter document: a condition for each path that carries one. */
  datatype Filter = Filter(category: Option<string>, date: Option<Bounds>, amount: Option<Bounds>)

  /**
   * Whether the value `x` of a path passes that path's condition. A missing
   * condition passes everything; an operator object passes when all of its
   * operators hold; the empty object `{}` would be an equality test against an
   * empty document, which no number or date passes.
   */
  predicate Within(b: Option<Bounds>, x: int) {
    match b
    case None => true
    case Some(Bounds(gte, lte)) =>
      && (gte.Some? || lte.Some?)
      && (gte.None? || gte.value <= x)
      && (lte.None? || x <= lte.value)
  }

  /** Whether a stored expense satisfies every condition of `f`. */
  predicate Matches(f: Filter, e: Expense) {
    && (f.category.None? || e.category == f.category.value)
    && Within(f.date, e.date)
    && Within(f.amount, e.amount)
  }

  /**
   * Builds the filter document. Only truthy parameters contribute, and a range
   * object is created only when one of its two bounds is given, so the filter
   * never carries an empty operator object.
   */
  function BuildFilter(q: Query, c: Coercion): (f: Filter)
    ensures f.category.Some? <==> Given(q.category)
    ensures f.category.Some? ==> f.category.value == q.category.value
    ensures f.date.Some? <==> Given(q.startDate) || Given(q.endDate)
    ensures f.date.Some? ==> (f.date.value.gte.Some? <==> Given(q.startDate))
    ensures f.date.Some? ==> (f.date.value.lte.Some? <==> Given(q.endDate))
    ensures f.date.Some? && f.date.value.gte.Some? ==> f.date.value.gte.value == c.toDate(q.startDate.value)
    ensures f.date.Some? && f.date.value.lte.Some? ==> f.date.value.lte.value == c.toDate(q.endDate.value)
    ensures f.amount.Some? <==> Given(q.minAmount) || Given(q.maxAmount)
    ensures f.amount.Some? ==> (f.amount.value.gte.Some? <==> Given(q.minAmount))
    ensures f.amount.Some? ==> (f.amount.value.lte.Some? <==> Given(q.maxAmount))
    ensures f.amount.Some? && f.amount.value.gte.Some? ==> f.amount.value.gte.value == c.toNumber(q.minAmount.value)
    ensures f.amount.Some? && f.amount.value.lte.Some? ==> f.amount.value.lte.value == c.toNumber(q.maxAmount.value)
    ensures f.date != Some(Bounds(None, None)) && f.amount != Some(Bounds(None, None))
  {
    var category := if Given(q.category) then Some(q.category.value) else None;
    var date :=
      if Given(q.startDate) || Given(q.endDate) then
        Some(Bounds(
          if Given(q.startDate) then Some(c.toDate(q.startDate.value)) else None,
          if Given(q.endDate) then Some(c.toDate(q.endDate.value)) else None))
      else None;
    var amount :=
      if Given(q.minAmount) || Given(q.maxAmount) then
        Some(Bounds(
          if Given(q.minAmount) then Some(c.toNumber(q.minAmount.value)) else None,
          if Given(q.maxAmount) then Some(c.toNumber(q.maxAmount.value)) else None))
      else None;
    Filter(category, date, amount)
  }

  /**
   * What the list endpoint promises of a returned expense, parameter by
   * parameter: exact category, and inclusive date and amount bounds, each
   * imposed only by a parameter that was given.
   */
  ghost predicate Admits(q: Query, c: Coercion, e: Expense) {
    && (Given(q.category) ==> e.category == q.category.value)
    && (Given(q.startDate) ==> c.toDate(q.startDate.value) <= e.date)
    && (Given(q.endDate) ==> e.date <= c.toDate(q.endDate.value))
    && (Given(q.minAmount) ==> c.toNumber(q.minAmount.value) <= e.amount)
    && (Given(q.maxAmount) ==> e.amount <= c.toNumber(q.maxAmount.value))
  }

  /** The built filter matches exactly the expenses the parameters admit. */
  lemma FilterMeaning(q: Query, c: Coercion, e: Expense)
    ensures Matches(BuildFilter(q, c), e) <==> Admits(q, c, e)
  {
  }

  /** With no parameter given, every expense matches. */
  lemma NoQueryMatchesAll(c: Coercion, e: Expense)
    ensures Matches(BuildFilter(NoQuery, c), e)
  {
  }

  /** The identifier of an expense, as a function value. */
  function IdOf(e: Expense): Id {
    e.id
  }

  /** The date of an expense, as a function value. */
  function DateOf(e: Expense): int {
    e.date
  }

  /** The expenses of `xs` that match `f`, in their original order. */
  function Select(xs: seq<Expense>, f: Filter): (r: seq<Expense>)
    ensures forall e :: e in r <==> e in xs && Matches(f, e)
    ensures |r| <= |xs|
    ensures Ordering.DistinctBy(xs, IdOf) ==> Ordering.DistinctBy(r, IdOf)
  {
    if xs == [] then
      []
    else
      var rest := Select(xs[1..], f);
      assert xs == [xs[0]] + xs[1..];
      if Matches(f, xs[0]) then
        assert Ordering.DistinctBy(xs, IdOf) ==> Ordering.DistinctBy([xs[0]] + rest, IdOf) by {
          if Ordering.DistinctBy(xs, IdOf) {
            Ordering.DistinctTail(xs, IdOf);
            Ordering.ConsDistinct(xs[0], rest, IdOf);
          }
        }
        [xs[0]] + rest
      else
        assert Ordering.DistinctBy(xs, IdOf) ==> Ordering.DistinctBy(xs[1..], IdOf) by {
          if Ordering.DistinctBy(xs, IdOf) {
            Ordering.DistinctTail(xs, IdOf);
          }
        }
        rest
  }
}
