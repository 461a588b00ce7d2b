# Expense tracker: a Dafny model

This project models the behaviour of a small personal expense tracker. The
tracker has three parts:

- an Express/Mongoose backend that stores expense documents (title, amount,
  category, date, description) and serves create, list-with-filters, get,
  update and delete routes, plus two aggregate summaries (by category, by
  month);
- the Mongoose schema that validates new documents and fills in defaults;
- a React page that keeps a form draft, an edit target and the loaded list, and
  computes its own per-category summary.

Once the database, the clock and HTTP are abstracted, every part is sequential
and deterministic. The model is therefore purely functional: immutable
datatypes, and pure functions that map a store, or the client's view state, to
a response and a new state.

| file | module | models |
|---|---|---|
| `common.dfy` | `Common` | `Option`, identifiers, instants, months |
| `schema.dfy` | `ExpenseSchema` | the expense schema: required paths, the category enumeration, the `category` and `date` defaults, and the unvalidated merge an update performs |
| `filter.dfy` | `ListFilter` | turning the list route's query parameters into a filter document, and matching against it |
| `ordering.dfy` | `Ordering` | the `$sort` stage and the `.sort()` call: a permutation, ordered by rank |
| `aggregation.dfy` | `Aggregation` | the `$group` stage: one row per key with `$sum` of amounts and `$sum: 1` |
| `api.dfy` | `ExpenseApi` | the store and the seven route handlers as store transitions |
| `client.dfy` | `ClientView` | the page's handlers as transitions of `(list, form, editingId)`, and `getSummary` |
| `scenarios.dfy` | `Scenarios` | worked three-document scenarios for the list and both summaries |

Design choices:

- **The store.** It is a `map<Id, Expense>` plus the identifier the next create
  will assign. Identifiers only grow, so a deleted identifier is never handed out
  again. `ExpenseApi.Valid` is the store invariant: every document sits under
  its own identifier, and that identifier is below the counter. Every handler
  preserves it.
- **Scan order.** MongoDB promises no order for a collection scan, and `$group`
  emits its rows in no promised order. The model chooses one: a scan visits
  documents in ascending identifier order (`ExpenseApi.NaturalOrder`), and a
  group row appears where its key is first seen. Every contract about the list
  and the summaries holds whatever order the scan takes. The row order of the
  worked scenarios does not depend on it either: their dates, totals and months
  are distinct, so the sort stage alone fixes the order. Only the order of ties
  after a sort and the intermediate row order of `Scenarios.GroupThree` depend
  on the choice, so those are facts about the model, not promises of the
  database.
- **The clock.** "Now" is an argument of `PostExpense`.
- **Months.** `date` is an integer instant. Its calendar month is supplied by the
  caller as a function `Date -> Month`, where `Month` is `1..12`.
- **Query coercion.** `new Date(...)` and `Number(...)` on query text are supplied
  by the caller (`ListFilter.Coercion`). A parameter counts only when it is truthy,
  that is, when it was sent and is not the empty string.
- **Categories are text.** `Expense.category` is a string, not an enumeration.
  Create admits only the six enumerated values. An update runs no validators, so
  it stores any text.
- **Client network calls.** The client's network round trips are arguments. A
  handler returns the request it sends. `delivered` says whether that request got
  any HTTP response at all. `fetched` is the result of the list re-read that
  follows (`None` when that fetch failed).
- **Required inputs.** The title, amount and category inputs carry the HTML
  `required` attribute. When one of them is empty, the browser blocks the
  submit event, so `handleSubmit` never runs (`ClientView.Submittable`).

Behaviour of the code that a reader might not expect:

- **Updates are not validated.** The update route calls `findByIdAndUpdate`
  without `runValidators`, so it stores an unlisted category or an empty title
  and answers 200. `ExpenseSchema.MergeSkipsValidation` exhibits this.
- **Unlisted categories are rejected.** `Other` applies only when `category` is
  omitted. An unlisted value fails the enum validator, and create answers 400.
- **Empty titles are rejected.** The `required` validator of a String path rejects
  the empty string as well as a missing value. An amount of `0` passes.

## Model

| member | source | states |
|---|---|---|
| ExpenseSchema.Create | Backend/common/expense.js:3-13 | create succeeds iff the title is present and non-empty, the amount is present, and the category is omitted or one of the six values; a failure names exactly the failing paths; a success is well-formed, with an omitted category stored as `Other`, an omitted date stored as the creation instant, and the description stored as given or left absent |
| ExpenseSchema.CreateFromBodyOf | Backend/common/expense.js:3-13 | creating from the full body of a well-formed document rebuilds that document whatever the clock says (the defaults never override a given value) |
| ExpenseSchema.Merge | Backend/main.js:63 | an update keeps the identifier, every path the body carries takes the body's value, and every path the body omits keeps its stored value |
| ExpenseSchema.MergeNeutral | Backend/main.js:63 | writing a document's own body, or an empty body, leaves it unchanged |
| ExpenseSchema.MergeIdempotent | Backend/main.js:63 | writing the same body twice equals writing it once |
| ExpenseSchema.MergeSkipsValidation | Backend/main.js:63 | without `runValidators`, an update can store the unlisted category `Vehicles` and an empty title |
| ListFilter.BuildFilter | Backend/main.js:27-40 | the filter constrains category iff `category` is given, and then to exactly that text; a date condition exists iff `startDate` or `endDate` is given, with `$gte` iff `startDate` and `$lte` iff `endDate`; likewise for amount with `minAmount`/`maxAmount`; it never contains an empty operator object |
| ListFilter.FilterMeaning | Backend/main.js:28-42 | a document matches the built filter iff it has the given category exactly and lies within every given inclusive date and amount bound |
| ListFilter.NoQueryMatchesAll | Backend/main.js:28-42 | with no parameter given, every document matches |
| ListFilter.Select | Backend/main.js:42 | the find keeps exactly the documents that match, and keeps identifiers distinct |
| Ordering.Insert | Backend/main.js:42 | inserting into a sorted sequence keeps it sorted and adds exactly that element |
| Ordering.Sort | Backend/main.js:42 | the result is ordered by non-increasing rank and is a permutation of the input |
| Ordering.SortKeepsDistinct | Backend/main.js:87 | sorting never makes two rows share a key |
| Aggregation.AddTo | Backend/main.js:86 | accumulating one document adds its amount and 1 to its key's row, opens a row for a new key, and touches no other key |
| Aggregation.Fold | Backend/main.js:86 | folding documents into rows adds, for every key, the sum of that key's amounts and the number of its documents; keys stay distinct |
| Aggregation.GroupBy | Backend/main.js:86 | one row per key occurring in the input, no key twice, each with `totalSpent` = sum of that key's amounts and `count` = number of its documents (at least 1) |
| Aggregation.Summarise | Backend/main.js:85-101 | a summary pipeline (group, then sort on a rank) returns rows ordered by that rank, one per occurring key, none twice, each with that key's sum and count |
| ExpenseApi.MonthsAscending | Backend/main.js:100 | month rows sorted by `_id` with no month twice are strictly ascending |
| ExpenseApi.PostExpense | Backend/main.js:15-21 | answers 201 or 400; 201 iff the body validates, and then exactly one document is added under a fresh identifier and returned, with the body's title, amount and description, its category or else `Other`, and its date or else the current instant; 400 leaves the store unchanged and reports exactly the failing paths; the store invariant is preserved |
| ExpenseApi.ListExpenses | Backend/main.js:25-47 | answers 200 with exactly the stored documents admitted by every given parameter, each once, ordered by date non-increasing; an empty result is not an error |
| ExpenseApi.GetExpense | Backend/main.js:50-58 | answers 200 with the stored document, or 404 "Expense not found" when the identifier is absent |
| ExpenseApi.PutExpense | Backend/main.js:61-69 | on an absent identifier answers 404 and changes nothing; otherwise answers 200 with the document after the merge, which is what is now stored, keeps the identifier, and leaves every other document untouched |
| ExpenseApi.DeleteExpense | Backend/main.js:72-80 | on an absent identifier answers 404 and changes nothing; otherwise removes exactly that document, leaves the others untouched, and answers 200 "Expense deleted successfully" |
| ExpenseApi.CategorySummary | Backend/main.js:83-93 | one row per category present in the store, none twice, with `totalSpent` = sum and `count` = number of that category's documents, ordered by `totalSpent` non-increasing |
| ExpenseApi.MonthlySummary | Backend/main.js:96-106 | one row per calendar month occurring among the stored dates (years merged), in strictly ascending month order, with sum and count per month; months without documents are absent |
| ExpenseApi.GetAfterPost | Backend/main.js:15-58 | a created document is fetched back unchanged under the returned identifier |
| ExpenseApi.GetAfterPut | Backend/main.js:50-69 | a fetch after an update returns exactly what the update answered (404 stays 404) |
| ExpenseApi.PutIdempotent | Backend/main.js:61-69 | repeating an update changes nothing further and answers the same |
| ExpenseApi.GetAfterDelete | Backend/main.js:50-80 | after a delete, both a fetch and a second delete of that identifier answer 404, and the second delete changes nothing |
| ExpenseApi.IdsNeverReused | Backend/main.js:15-80 | a document created after a delete never receives the deleted identifier |
| ExpenseApi.EmptyCollection | Backend/main.js:25-106 | on an empty collection, the list and both summaries answer 200 with empty sequences |
| ClientView.Refresh | Frontend/src/app/page.js:13-21 | a delivered list replaces the shown one; a failed fetch leaves the view as it was |
| ClientView.HandleChange | Frontend/src/app/page.js:29-31 | only the named field takes the new value; the other fields, the list and the edit target are unchanged |
| ClientView.ChangesCommute | Frontend/src/app/page.js:29-31 | changes to two different fields give the same draft in either order |
| ClientView.LastChangeWins | Frontend/src/app/page.js:29-31 | of two changes to one field, the later one wins |
| ClientView.HandleSubmit | Frontend/src/app/page.js:34-101 | a request is sent iff every required input is non-empty, and otherwise nothing changes; PUT to the edit target's URL when one is set, POST to the collection otherwise, with the draft as body; once the request gets any response, whatever its status, the draft becomes the blank title/amount/category form, the edit target is cleared and the list is re-read; a request that gets no response leaves the view unchanged |
| ClientView.HandleDelete | Frontend/src/app/page.js:51-54 | sends DELETE for that identifier and then re-reads the list; nothing is removed locally, and the draft and the edit target stay |
| ClientView.FormOf | Frontend/src/app/page.js:57-58 | the draft taken from a row holds that row's identifier, title, amount, category and date, and its description exactly when it has one |
| ClientView.HandleEdit | Frontend/src/app/page.js:57-60 | the draft becomes the row and the edit target becomes the row's identifier; the list is unchanged |
| ClientView.LatestRefreshWins | Frontend/src/app/page.js:13-21 | of two re-reads the later delivered list is shown, a failed re-read changes nothing, and repeating a re-read changes nothing |
| ClientView.RowSubmittable | Frontend/src/app/page.js:57-101 | a row's draft passes the required inputs iff its title and category are non-empty; every document create accepts passes |
| ClientView.BlankNotSubmittable | Frontend/src/app/page.js:7-101 | the blank draft fails the required inputs, so on the first page state a submit sends nothing and changes nothing |
| ClientView.EditThenSubmit | Frontend/src/app/page.js:34-101 | editing a row with non-empty title and category and submitting sends that row with PUT to its own URL, then leaves editing with a blank draft; a row with an empty title or category cannot be sent |
| ClientView.SubmitThenSubmit | Frontend/src/app/page.js:34-101 | after a submit that got a response the draft is blank, so pressing the button again sends nothing and changes nothing |
| ClientView.DeleteKeepsEditTarget | Frontend/src/app/page.js:34-60 | deleting the row being edited keeps the edit target, so the next submit of a row with non-empty title and category still PUTs to the deleted identifier |
| ClientView.Tally | Frontend/src/app/page.js:64-67 | folding rows into the totals adds each category's amounts to its entry and adds an entry for each new category |
| ClientView.GetSummary | Frontend/src/app/page.js:63-69 | the keys are exactly the categories occurring in the loaded list, and each maps to the sum of that category's amounts |
| ClientView.EmptySummary | Frontend/src/app/page.js:63-69 | an empty list gives an empty summary |
| ClientView.SummaryAgreesWithGrouping | Frontend/src/app/page.js:63-69 | on the same list, the local summary has the same categories as the server's category grouping, and each category's entry is its row's `totalSpent` |
| Scenarios.ListNewestFirst | Backend/main.js:42 | documents dated days 1, 2 and 3 are listed as 3, 2, 1 |
| Scenarios.CategoryExample | Backend/main.js:85-88 | Food 100, Food 50 and Transport 30 summarise to Food 150 over 2, then Transport 30 over 1 |
| Scenarios.MonthlyExample | Backend/main.js:98-101 | documents dated in months 3, 3 and 1 summarise to exactly two rows, month 1 and then month 3 |

## Left out

- Startup (`Backend/server.js`): loading configuration, connecting to the database, choosing the port and listening are I/O.
- Express routing, CORS, JSON body parsing and response serialisation: only the status code and the payload are modelled.
- Store failures and malformed identifiers come from the database driver and are not modelled. In create and update they answer 400, because both routes answer any thrown error with 400. In list, get, delete and the summaries they answer 500.
- Mongoose type casting: string-to-number and string-to-date casts of bodies, and `Number(...)` producing `NaN`. Bodies are typed `Payload`s, so an update never fails with a cast error (400), and query coercion is an argument.
- JSON `null` values, query parameters repeated into arrays, and the `_id` and `__v` fields a client may echo in an update body are not modelled.
- An `_id` in a create body: `Expense.create` keeps it. Such a body could recreate a deleted identifier, against `ExpenseApi.IdsNeverReused`. If the identifier is taken, a valid body answers 400. The model assigns every identifier itself.
- A JSON array as a create body: `Expense.create` then stores one document per element. The model takes one `Payload`, so it adds exactly one document.
- Update operators in an update body: `findByIdAndUpdate` applies `$unset`, `$inc` and the other operators rather than merging them. The model's `Payload` holds only plain field values.
- A list re-read that answers 500: the page stores the `{error}` object as its list. `ClientView.Refresh` takes a list or a failure, so it cannot show that state.
- ClientView.GetSummary: the page's `summary` is a plain object. A category named like an `Object.prototype` member (`constructor`, `toString`, `__proto__`) reads the inherited member. Its entry then becomes concatenated text, or is lost for `__proto__`. An update can store such a category. The model's map has no inherited members, so its contract holds only for other category names.
- Mongoose's `__v` version key, unknown body fields (dropped under strict mode), and the validation message text.
- ExpenseSchema.Create: reports the set of failing paths instead of Mongoose's message text, which lists the same paths.
- Amounts are integers, not floating-point numbers, so sums are exact.
- Dates are integer instants. Time zones and the calendar computation behind `$month` are represented by the caller-supplied month function.
- Concurrency: overlapping requests and last-write-wins races at the store are not modelled; each handler is one atomic step.
- React rendering, `useEffect` scheduling, the asynchronous interleaving of the re-read after a submit, and console logging. A handler is modelled as if its awaited calls complete in order.
