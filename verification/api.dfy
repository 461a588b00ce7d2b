/**
 * The HTTP handlers of the expense service as transitions of an abstract
 * store: each takes the store and the request's parameters and yields the
 * status, the JSON payload and, for the mutating routes, the new store.
 */
module ExpenseApi {
  import opened Common
  import opened ExpenseSchema
  import opened ListFilter
  import opened Aggregation
  import Ordering

  /**
   * The expenses collection: documents by identifier, and the identifier the
   * next create will assign. Identifiers only grow, so none is ever reused.
   */
  datatype Store = Store(docs: map<Id, Expense>, nextId: Id)

  /** The collection before anything was created. */
  const EmptyStore: Store := Store(map[], 0)

  /** The error text of every lookup that finds no document. */
  const NotFoundMessage: string := "Expense not found"

  /** The confirmation text of a successful delete. */
  const DeletedMessage: string := "Expense deleted successfully"

  /** A JSON response payload. */
  datatype Body =
    | Record(expense: Expense)
    | Records(expenses: seq<Expense>)
    | Confirmation(message: string)
    | Failure(error: string)
    | Invalid(paths: set<Path>)
    | ByCategory(categoryRows: seq<Group<string>>)
    | ByMonth(monthRows: seq<Group<Month>>)

  /** Status code and payload. */
  datatype Response = Response(status: int, body: Body)

  /** The store after a request, with the response sent. */
  datatype Step = Step(store: Store, response: Response)

  /** Every document sits under its own identifier. */
  ghost predicate Keyed(docs: map<Id, Expense>) {
    forall k :: k in docs ==> docs[k].id == k
  }

  /** The store invariant: documents are keyed by their identifier, all below `nextId`. */
  ghost predicate Valid(s: Store) {
    Keyed(s.docs) && forall k :: k in s.docs ==> k < s.nextId
  }

  /** The documents with identifier below `n`, in identifier order. */
  function Scan(docs: map<Id, Expense>, n: nat): (r: seq<Expense>)
    requires Keyed(docs)
    ensures forall e :: e in r ==> e.id < n && e.id in docs && docs[e.id] == e
    ensures forall k :: k in docs && k < n ==> docs[k] in r
    ensures forall i, j :: 0 <= i < j < |r| ==> r[i].id < r[j].id
  {
    if n == 0 then
      []
    else
      var prefix := Scan(docs, n - 1);
      if n - 1 in docs then prefix + [docs[n - 1]] else prefix
  }

  /**
   * The collection in the order the model lets a scan without a sort visit it:
   * ascending identifier order. The database promises no such order; the
   * contracts of the list and the summaries hold whatever order a scan takes.
   */
  function NaturalOrder(s: Store): (r: seq<Expense>)
    requires Valid(s)
    ensures forall e :: e in r ==> e.id in s.docs && s.docs[e.id] == e
    ensures forall k :: k in s.docs ==> s.docs[k] in r
    ensures Ordering.DistinctBy(r, IdOf)
  {
    Scan(s.docs, s.nextId)
  }

  /** The keys of the natural order are the keys of the stored documents. */
  lemma StoredKeys<K>(s: Store, key: Expense -> K)
    requires Valid(s)
    ensures KeysIn(NaturalOrder(s), key) == set k | k in s.docs :: key(s.docs[k])
  {
    var xs := NaturalOrder(s);
    forall x | x in KeysIn(xs, key) ensures x in set k | k in s.docs :: key(s.docs[k]) {
      var e :| e in xs && key(e) == x;
      assert s.docs[e.id] == e;
    }
    forall x | x in set k | k in s.docs :: key(s.docs[k]) ensures x in KeysIn(xs, key) {
      var k :| k in s.docs && key(s.docs[k]) == x;
      assert s.docs[k] in xs;
    }
  }

  /** POST /api/expenses: validate, apply defaults, store under a fresh identifier. */
  function PostExpense(s: Store, p: Payload, now: Date): (r: Step)
    ensures r.response.status == 201 || r.response.status == 400
    ensures r.response.status == 201 <==> TitlePasses(p) && AmountPasses(p) && CategoryPasses(p)
    ensures r.response.status == 400 ==> r.store == s && r.response.body.Invalid? && r.response.body.paths != {}
    ensures r.response.status == 201 ==>
      && r.response.body.Record?
      && var e := r.response.body.expense;
      && WellFormed(e)
      && e.id == s.nextId
      && r.store.docs.Keys == s.docs.Keys + {e.id}
      && r.store.docs[e.id] == e
      && (forall k :: k in s.docs ==> k != e.id ==> r.store.docs[k] == s.docs[k])
      && r.store.nextId > s.nextId
    ensures r.response.status == 201 ==>
      && var e := r.response.body.expense;
      && e.title == p.title.value && e.amount == p.amount.value
      && e.category == p.category.GetOr(DefaultCategory)
      && e.date == p.date.GetOr(now)
      && e.description == p.description
      && ExpenseSchema.Create(p, s.nextId, now) == Created(e)
    ensures r.response.status == 400 ==>
      && (TitlePath in r.response.body.paths <==> !TitlePasses(p))
      && (AmountPath in r.response.body.paths <==> !AmountPasses(p))
      && (CategoryPath in r.response.body.paths <==> !CategoryPasses(p))
      && ExpenseSchema.Create(p, s.nextId, now) == Rejected(r.response.body.paths)
    ensures Valid(s) && r.response.status == 201 ==> r.response.body.expense.id !in s.docs
    ensures Valid(s) ==> Valid(r.store)
  {
    match ExpenseSchema.Create(p, s.nextId, now)
    case Created(e) => Step(Store(s.docs[e.id := e], s.nextId + 1), Response(201, Record(e)))
    case Rejected(failed) => Step(s, Response(400, Invalid(failed)))
  }

  /** GET /api/expenses: the matching documents, latest date first. */
  function ListExpenses(s: Store, q: Query, c: Coercion): (r: Response)
    requires Valid(s)
    ensures r.status == 200 && r.body.Records?
    ensures Ordering.SortedBy(r.body.expenses, DateOf)
    ensures forall e :: e in r.body.expenses ==> e.id in s.docs && s.docs[e.id] == e && Admits(q, c, e)
    ensures forall k :: k in s.docs && Admits(q, c, s.docs[k]) ==> s.docs[k] in r.body.expenses
    ensures Ordering.DistinctBy(r.body.expenses, IdOf)
  {
    var f := BuildFilter(q, c);
    var selected := Select(NaturalOrder(s), f);
    var sorted := Ordering.Sort(selected, DateOf);
    Ordering.SortSameElements(selected, DateOf);
    Ordering.SortKeepsDistinct(selected, DateOf, IdOf);
    forall e ensures Matches(f, e) <==> Admits(q, c, e) {
      FilterMeaning(q, c, e);
    }
    Response(200, Records(sorted))
  }

  /** GET /api/expenses/:id. */
  function GetExpense(s: Store, id: Id): (r: Response)
    ensures id in s.docs ==> r == Response(200, Record(s.docs[id]))
    ensures id !in s.docs ==> r == Response(404, Failure(NotFoundMessage))
  {
    if id in s.docs then Response(200, Record(s.docs[id]))
    else Response(404, Failure(NotFoundMessage))
  }

  /**
   * PUT /api/expenses/:id: write the body over the document, without
   * re-running the validators, and answer with the document after the write.
   */
  function PutExpense(s: Store, id: Id, p: Payload): (r: Step)
    ensures id !in s.docs ==> r == Step(s, Response(404, Failure(NotFoundMessage)))
    ensures id in s.docs ==>
      && r.response.status == 200
      && r.store.docs.Keys == s.docs.Keys
      && r.store.nextId == s.nextId
      && r.response.body == Record(r.store.docs[id])
      && r.store.docs[id] == Merge(s.docs[id], p)
      && (forall k :: k in s.docs && k != id ==> r.store.docs[k] == s.docs[k])
    ensures Valid(s) ==> Valid(r.store)
  {
    if id !in s.docs then
      Step(s, Response(404, Failure(NotFoundMessage)))
    else
      var e := Merge(s.docs[id], p);
      Step(s.(docs := s.docs[id := e]), Response(200, Record(e)))
  }

  /** DELETE /api/expenses/:id: remove the document for good. */
  function DeleteExpense(s: Store, id: Id): (r: Step)
    ensures id !in s.docs ==> r == Step(s, Response(404, Failure(NotFoundMessage)))
    ensures id in s.docs ==>
      && r.response == Response(200, Confirmation(DeletedMessage))
      && r.store.docs.Keys == s.docs.Keys - {id}
      && r.store.nextId == s.nextId
      && (forall k :: k in r.store.docs ==> r.store.docs[k] == s.docs[k])
    ensures Valid(s) ==> Valid(r.store)
  {
    if id !in s.docs then
      Step(s, Response(404, Failure(NotFoundMessage)))
    else
      Step(s.(docs := s.docs - {id}), Response(200, Confirmation(DeletedMessage)))
  }

  /** GET /api/expenses/summary/category: per-category totals, largest total first. */
  function CategorySummary(s: Store): (r: Response)
    requires Valid(s)
    ensures r.status == 200 && r.body.ByCategory?
    ensures Ordering.SortedBy(r.body.categoryRows, SpentOf)
    ensures DistinctKeys(r.body.categoryRows)
    ensures KeysOf(r.body.categoryRows) == set k | k in s.docs :: s.docs[k].category
    ensures forall g :: g in r.body.categoryRows ==>
      && g.totalSpent == SumBy(NaturalOrder(s), CategoryOf, g.key)
      && g.count == CountBy(NaturalOrder(s), CategoryOf, g.key)
      && g.count > 0
  {
    StoredKeys(s, CategoryOf);
    Response(200, ByCategory(Summarise(NaturalOrder(s), CategoryOf, SpentOf)))
  }

  /** The grouping key of the monthly summary: the month of the date, whatever the year. */
  function MonthKey(monthOf: Date -> Month): Expense -> Month {
    (e: Expense) => monthOf(e.date)
  }

  /** The rank that sorts month rows in ascending month order. */
  function MonthRank(g: Group<Month>): int {
    0 - g.key as int
  }

  /** GET /api/expenses/summary/monthly: per-month totals, in month order, months without documents absent. */
  function MonthlySummary(s: Store, monthOf: Date -> Month): (r: Response)
    requires Valid(s)
    ensures r.status == 200 && r.body.ByMonth?
    ensures forall i, j :: 0 <= i < j < |r.body.monthRows| ==> r.body.monthRows[i].key < r.body.monthRows[j].key
    ensures KeysOf(r.body.monthRows) == set k | k in s.docs :: monthOf(s.docs[k].date)
    ensures forall g :: g in r.body.monthRows ==>
      && g.totalSpent == SumBy(NaturalOrder(s), MonthKey(monthOf), g.key)
      && g.count == CountBy(NaturalOrder(s), MonthKey(monthOf), g.key)
      && g.count > 0
  {
    var rows := Summarise(NaturalOrder(s), MonthKey(monthOf), MonthRank);
    StoredMonths(s, monthOf);
    MonthsAscending(rows);
    Response(200, ByMonth(rows))
  }

  /** The months occurring in the natural order are the months of the stored dates. */
  lemma StoredMonths(s: Store, monthOf: Date -> Month)
    requires Valid(s)
    ensures KeysIn(NaturalOrder(s), MonthKey(monthOf)) == set k | k in s.docs :: monthOf(s.docs[k].date)
  {
    StoredKeys(s, MonthKey(monthOf));
    assert forall k :: k in s.docs ==> MonthKey(monthOf)(s.docs[k]) == monthOf(s.docs[k].date);
  }

  /** Month rows sorted by descending negated month, with distinct months, ascend strictly. */
  lemma MonthsAscending(rows: seq<Group<Month>>)
    requires Ordering.SortedBy(rows, MonthRank) && DistinctKeys(rows)
    ensures forall i, j :: 0 <= i < j < |rows| ==> rows[i].key < rows[j].key
  {
    forall i, j | 0 <= i < j < |rows| ensures rows[i].key < rows[j].key {
      assert MonthRank(rows[i]) >= MonthRank(rows[j]);
    }
  }

  /** A created document can be fetched under the identifier the create returned. */
  lemma GetAfterPost(s: Store, p: Payload, now: Date)
    requires PostExpense(s, p, now).response.status == 201
    ensures var step := PostExpense(s, p, now);
      GetExpense(step.store, step.response.body.expense.id) == Response(200, step.response.body)
  {
  }

  /** After an update, fetching the document returns what the update answered. */
  lemma GetAfterPut(s: Store, id: Id, p: Payload)
    ensures var step := PutExpense(s, id, p);
      GetExpense(step.store, id) == step.response
  {
  }

  /** Repeating an update changes nothing more and answers the same. */
  lemma PutIdempotent(s: Store, id: Id, p: Payload)
    ensures var once := PutExpense(s, id, p);
      PutExpense(once.store, id, p) == once
  {
    if id in s.docs {
      MergeIdempotent(s.docs[id], p);
    }
  }

  /** After a delete, both a fetch and a second delete of the same identifier answer 404. */
  lemma GetAfterDelete(s: Store, id: Id)
    requires id in s.docs
    ensures var gone := DeleteExpense(s, id).store;
      && GetExpense(gone, id) == Response(404, Failure(NotFoundMessage))
      && DeleteExpense(gone, id) == Step(gone, Response(404, Failure(NotFoundMessage)))
  {
  }

  /** A document created after a delete never receives the deleted identifier. */
  lemma IdsNeverReused(s: Store, id: Id, p: Payload, now: Date)
    requires Valid(s) && id in s.docs
    ensures var step := PostExpense(DeleteExpense(s, id).store, p, now);
      step.response.status == 201 ==> step.response.body.expense.id != id
  {
  }

  /** On an empty collection the list and both summaries are empty, and none of them fails. */
  lemma EmptyCollection(q: Query, c: Coercion, monthOf: Date -> Month)
    ensures ListExpenses(EmptyStore, q, c) == Response(200, Records([]))
    ensures CategorySummary(EmptyStore) == Response(200, ByCategory([]))
    ensures MonthlySummary(EmptyStore, monthOf) == Response(200, ByMonth([]))
  {
    assert NaturalOrder(EmptyStore) == [];
  }
}
