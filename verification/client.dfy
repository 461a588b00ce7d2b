/**
 * The single-page client: the list it shows, the form draft and the row being
 * edited, with each event handler as a transition of that view state. The
 * network is abstracted: a handler yields the request it sends, and the
 * outcome of the round trip is an argument.
 */
module ClientView {
  import opened Common
  import opened ExpenseSchema
  import opened Aggregation

  /** A form field's value: text typed into an input, or a number copied from a row. */
  datatype Value = Text(text: string) | Number(number: int)

  /** The form draft, field name to value. */
  type Form = map<string, Value>

  /** The draft the form starts from and returns to after a submit. */
  const BlankForm: Form := map["title" := Text(""), "amount" := Text(""), "category" := Text("")]

  /** The client's state: the loaded list, the draft, and the identifier of the row being edited. */
  datatype View = View(expenses: seq<Expense>, form: Form, editingId: Option<Id>)

  /** The state before the first fetch completes. */
  const InitialView: View := View([], BlankForm, None)

  /** HTTP methods of the requests a handler sends (the list re-read is folded into `Refresh`). */
  datatype Verb = Post | Put | Delete

  /** The collection URL, or the URL of one document below it. */
  datatype Target = Collection | Item(id: Id)

  /** A request the client sends. */
  datatype Request = Request(verb: Verb, target: Target, body: Option<Form>)

  /** The request a handler sent, if any, and the view once the handler is done. */
  datatype Effect = Effect(request: Option<Request>, view: View)

  /** The inputs that carry the `required` attribute. */
  const RequiredInputs: set<string> := {"title", "amount", "category"}

  /**
   * The browser's constraint validation: the form's submit event fires only
   * when every required input holds a non-empty value.
   */
  predicate Submittable(form: Form) {
    forall f :: f in RequiredInputs ==> f in form && form[f] != Text("")
  }

  /**
   * Re-reads the list: a fetch that delivers a list replaces the shown one; a
   * failed fetch is only logged, and the view stays as it was.
   */
  function Refresh(v: View, fetched: Option<seq<Expense>>): (r: View)
    ensures r.form == v.form && r.editingId == v.editingId
    ensures fetched.Some? ==> r.expenses == fetched.value
    ensures fetched.None? ==> r == v
  {
    match fetched
    case Some(xs) => v.(expenses := xs)
    case None => v
  }

  /** An input changed: only the named field of the draft takes the new text. */
  function HandleChange(v: View, name: string, value: string): (r: View)
    ensures r.form.Keys == v.form.Keys + {name}
    ensures r.form[name] == Text(value)
    ensures forall f :: f in v.form && f != name ==> r.form[f] == v.form[f]
    ensures r.expenses == v.expenses && r.editingId == v.editingId
  {
    v.(form := v.form[name := Text(value)])
  }

  /**
   * The submit button was pressed. When a required input is empty the browser
   * blocks the submit event: no request is sent and the view stays. Otherwise
   * the handler PUTs to the edited row when one is set and POSTs to the
   * collection otherwise, with the draft as the body. `delivered` says whether
   * the request got any HTTP response; if it did, whatever its status, the
   * draft and the edit target are reset and the list is re-read. If it did not,
   * the handler stops with the view untouched.
   */
  function HandleSubmit(v: View, delivered: bool, fetched: Option<seq<Expense>>): (r: Effect)
    ensures r.request.Some? <==> Submittable(v.form)
    ensures !Submittable(v.form) ==> r.view == v
    ensures r.request.Some? ==> r.request.value.body == Some(v.form)
    ensures r.request.Some? && v.editingId.Some? ==>
      r.request.value.verb == Put && r.request.value.target == Item(v.editingId.value)
    ensures r.request.Some? && v.editingId.None? ==>
      r.request.value.verb == Post && r.request.value.target == Collection
    ensures r.request.Some? && delivered ==> r.view.form == BlankForm && r.view.editingId == None
    ensures r.request.Some? && delivered && fetched.Some? ==> r.view.expenses == fetched.value
    ensures r.request.Some? && delivered && fetched.None? ==> r.view.expenses == v.expenses
    ensures !delivered ==> r.view == v
  {
    if !Submittable(v.form) then
      Effect(None, v)
    else
      var request :=
        match v.editingId
        case Some(id) => Request(Put, Item(id), Some(v.form))
        case None => Request(Post, Collection, Some(v.form));
      if delivered then
        Effect(Some(request), Refresh(v.(form := BlankForm, editingId := None), fetched))
      else
        Effect(Some(request), v)
  }

  /**
   * A row's delete button: DELETE that document, then re-read the list. The row
   * is not removed locally, and the draft and edit target are left alone.
   */
  function HandleDelete(v: View, id: Id, delivered: bool, fetched: Option<seq<Expense>>): (r: Effect)
    ensures r.request == Some(Request(Delete, Item(id), None))
    ensures r.view.form == v.form && r.view.editingId == v.editingId
    ensures delivered && fetched.Some? ==> r.view.expenses == fetched.value
    ensures !delivered || fetched.None? ==> r.view.expenses == v.expenses
  {
    var request := Request(Delete, Item(id), None);
    if delivered then Effect(Some(request), Refresh(v, fetched)) else Effect(Some(request), v)
  }

  /** A row as the list endpoint delivers it, field by field. */
  function FormOf(e: Expense): (r: Form)
    ensures {"_id", "title", "amount", "category", "date"} <= r.Keys
    ensures r["_id"] == Number(e.id)
    ensures r["title"] == Text(e.title) && r["amount"] == Number(e.amount)
    ensures r["category"] == Text(e.category) && r["date"] == Number(e.date)
    ensures "description" in r <==> e.description.Some?
    ensures e.description.Some? ==> r["description"] == Text(e.description.value)
  {
    var fields := map["_id" := Number(e.id), "title" := Text(e.title), "amount" := Number(e.amount),
                       "category" := Text(e.category), "date" := Number(e.date)];
    match e.description
    case Some(d) => fields["description" := Text(d)]
    case None => fields
  }

  /** A row's edit button: the draft becomes the row and the row becomes the edit target. */
  function HandleEdit(v: View, e: Expense): (r: View)
    ensures r.form == FormOf(e) && r.editingId == Some(e.id)
    ensures r.expenses == v.expenses
  {
    v.(form := FormOf(e), editingId := Some(e.id))
  }

  /** Adds the amounts of `xs`, first to last, to the per-category totals in `acc`. */
  function Tally(acc: map<string, int>, xs: seq<Expense>): (r: map<string, int>)
    ensures r.Keys == acc.Keys + KeysIn(xs, CategoryOf)
    ensures forall c :: c in r ==> r[c] == (if c in acc then acc[c] else 0) + SumBy(xs, CategoryOf, c)
    decreases xs
  {
    if xs == [] then
      acc
    else
      var e := xs[0];
      assert xs == [e] + xs[1..];
      assert KeysIn(xs, CategoryOf) == {CategoryOf(e)} + KeysIn(xs[1..], CategoryOf);
      Tally(acc[e.category := (if e.category in acc then acc[e.category] else 0) + e.amount], xs[1..])
  }

  /**
   * The locally computed summary: one entry per category occurring in the
   * loaded list, holding the sum of that category's amounts.
   */
  function GetSummary(xs: seq<Expense>): (r: map<string, int>)
    ensures r.Keys == KeysIn(xs, CategoryOf)
    ensures forall c :: c in r ==> r[c] == SumBy(xs, CategoryOf, c)
  {
    Tally(map[], xs)
  }

  /** An empty list gives an empty summary. */
  lemma EmptySummary()
    ensures GetSummary([]) == map[]
  {
  }

  /**
   * On the same list, the local summary and the server's category grouping
   * agree: the same categories, and each category's entry is its row's total.
   */
  lemma SummaryAgreesWithGrouping(xs: seq<Expense>)
    ensures GetSummary(xs).Keys == KeysOf(GroupBy(xs, CategoryOf))
    ensures forall g :: g in GroupBy(xs, CategoryOf) ==> GetSummary(xs)[g.key] == g.totalSpent
  {
    var rows := GroupBy(xs, CategoryOf);
    forall g | g in rows ensures g.key in GetSummary(xs) {
      assert g.key in KeysOf(rows);
    }
  }

  /** Changes to two different fields can be made in either order. */
  lemma ChangesCommute(v: View, a: string, x: string, b: string, y: string)
    requires a != b
    ensures HandleChange(HandleChange(v, a, x), b, y) == HandleChange(HandleChange(v, b, y), a, x)
  {
  }

  /** Of two changes to the same field, the later one wins. */
  lemma LastChangeWins(v: View, name: string, x: string, y: string)
    ensures HandleChange(HandleChange(v, name, x), name, y) == HandleChange(v, name, y)
  {
  }

  /** Of two re-reads, the later delivered list is the one shown; a failed re-read changes nothing. */
  lemma LatestRefreshWins(v: View, first: Option<seq<Expense>>, second: Option<seq<Expense>>)
    ensures second.Some? ==> Refresh(Refresh(v, first), second) == Refresh(v, second)
    ensures second.None? ==> Refresh(Refresh(v, first), second) == Refresh(v, first)
    ensures Refresh(Refresh(v, first), first) == Refresh(v, first)
  {
  }

  /**
   * A row's draft passes the `required` inputs exactly when its title and its
   * category are non-empty; in particular every document create accepted does.
   */
  lemma RowSubmittable(e: Expense)
    ensures Submittable(FormOf(e)) <==> e.title != "" && e.category != ""
    ensures WellFormed(e) ==> Submittable(FormOf(e))
  {
    var form := FormOf(e);
    if e.title != "" && e.category != "" {
      forall f | f in RequiredInputs ensures f in form && form[f] != Text("") {
      }
    }
    if WellFormed(e) {
      assert e.category != "" by { assert e.category in Categories; }
    }
  }

  /** The blank draft cannot be submitted: before the first edit nothing is sent and nothing changes. */
  lemma BlankNotSubmittable(delivered: bool, fetched: Option<seq<Expense>>)
    ensures !Submittable(BlankForm)
    ensures HandleSubmit(InitialView, delivered, fetched) == Effect(None, InitialView)
  {
    assert BlankForm["title"] == Text("");
  }

  /**
   * Editing a row and submitting sends the row to its own URL with PUT and
   * leaves editing, when the row's title and category are non-empty; a row an
   * unvalidated update left with an empty title or category cannot be sent.
   */
  lemma EditThenSubmit(v: View, e: Expense, fetched: Option<seq<Expense>>)
    ensures var effect := HandleSubmit(HandleEdit(v, e), true, fetched);
      && (e.title != "" && e.category != "" ==>
            && effect.request == Some(Request(Put, Item(e.id), Some(FormOf(e))))
            && effect.view.form == BlankForm
            && effect.view.editingId == None)
      && (e.title == "" || e.category == "" ==>
            effect == Effect(None, HandleEdit(v, e)))
  {
    RowSubmittable(e);
  }

  /**
   * After a delivered submit the draft is blank, so a second press of the
   * button sends nothing and changes nothing.
   */
  lemma SubmitThenSubmit(v: View, fetched: Option<seq<Expense>>, delivered: bool, again: Option<seq<Expense>>)
    ensures var first := HandleSubmit(v, true, fetched);
      first.request.Some? ==> HandleSubmit(first.view, delivered, again) == Effect(None, first.view)
  {
    BlankNotSubmittable(delivered, again);
  }

  /**
   * Deleting the row being edited keeps the edit target: a later submit still
   * PUTs to the deleted identifier, provided the row's title and category are
   * non-empty.
   */
  lemma DeleteKeepsEditTarget(v: View, e: Expense, fetched: Option<seq<Expense>>)
    ensures var edited := HandleEdit(v, e);
      var after := HandleDelete(edited, e.id, true, fetched).view;
      && after.editingId == Some(e.id)
      && (e.title != "" && e.category != "" ==>
            HandleSubmit(after, true, None).request == Some(Request(Put, Item(e.id), Some(FormOf(e)))))
  {
    RowSubmittable(e);
  }
}
