/**
 * Worked scenarios on a three-document collection: the newest-first listing,
 * the category summary of two Food expenses and one Transport expense, and a
 * monthly summary over two months.
 */
module Scenarios {
  import opened Common
  import opened ExpenseSchema
  import opened ListFilter
  import opened Aggregation
  import opened ExpenseApi
  import Ordering

  /** An expense with a placeholder title and no description. */
  function Day(id: Id, amount: int, category: string, date: Date): Expense {
    Expense(id, "x", amount, category, date, None)
  }

  /** A collection holding three documents under identifiers 0, 1 and 2. */
  function Three(e0: Expense, e1: Expense, e2: Expense): Store {
    Store(map[0 := e0, 1 := e1, 2 := e2], 3)
  }

  /** The collection is valid, and its natural order is identifier order. */
  lemma ScanThree(e0: Expense, e1: Expense, e2: Expense)
    requires e0.id == 0 && e1.id == 1 && e2.id == 2
    ensures Valid(Three(e0, e1, e2))
    ensures NaturalOrder(Three(e0, e1, e2)) == [e0, e1, e2]
  {
    var docs := Three(e0, e1, e2).docs;
    assert Keyed(docs);
    assert Scan(docs, 0) == [];
    assert Scan(docs, 1) == [e0];
    assert Scan(docs, 2) == [e0, e1];
    assert Scan(docs, 3) == [e0, e1, e2];
  }

  /** The filter without conditions keeps every document. */
  lemma SelectAllThree(e0: Expense, e1: Expense, e2: Expense)
    ensures Select([e0, e1, e2], Filter(None, None, None)) == [e0, e1, e2]
  {
    var f := Filter(None, None, None);
    assert [e0, e1, e2][1..] == [e1, e2];
    assert [e1, e2][1..] == [e2];
    assert Select([e2], f) == [e2];
    assert Select([e1, e2], f) == [e1, e2];
  }

  /** Three documents with increasing dates come out newest first. */
  lemma SortThree(e0: Expense, e1: Expense, e2: Expense)
    requires e0.date < e1.date < e2.date
    ensures Ordering.Sort([e0, e1, e2], DateOf) == [e2, e1, e0]
  {
    assert [e0, e1, e2][1..] == [e1, e2];
    assert [e1, e2][1..] == [e2];
    assert Ordering.Sort([e2], DateOf) == [e2];
    assert Ordering.Insert(e1, [e2], DateOf) == [e2, e1];
    assert Ordering.Sort([e1, e2], DateOf) == [e2, e1];
    assert [e2, e1][1..] == [e1];
    assert Ordering.Insert(e0, [e1], DateOf) == [e1, e0];
    assert Ordering.Insert(e0, [e2, e1], DateOf) == [e2, e1, e0];
  }

  /** Documents dated days 1, 2 and 3 are listed in the order 3, 2, 1. */
  lemma ListNewestFirst(c: Coercion)
    ensures var s := Three(Day(0, 1, "Food", 1), Day(1, 1, "Food", 2), Day(2, 1, "Food", 3));
      Valid(s) && ListExpenses(s, NoQuery, c).body.expenses == [s.docs[2], s.docs[1], s.docs[0]]
  {
    var e0, e1, e2 := Day(0, 1, "Food", 1), Day(1, 1, "Food", 2), Day(2, 1, "Food", 3);
    ScanThree(e0, e1, e2);
    assert BuildFilter(NoQuery, c) == Filter(None, None, None);
    SelectAllThree(e0, e1, e2);
    SortThree(e0, e1, e2);
  }

  /** Two documents sharing a key and one with another key make two rows, in the order the model's scan first sees their keys. */
  lemma GroupThree<K(!new)>(e0: Expense, e1: Expense, e2: Expense, key: Expense -> K)
    requires key(e0) == key(e1) != key(e2)
    ensures GroupBy([e0, e1, e2], key)
      == [Group(key(e0), e0.amount + e1.amount, 2), Group(key(e2), e2.amount, 1)]
  {
    assert [e0, e1, e2][1..] == [e1, e2];
    assert [e1, e2][1..] == [e2];
    var g0 := AddTo([], key(e0), e0.amount);
    assert g0 == [Group(key(e0), e0.amount, 1)];
    var g1 := AddTo(g0, key(e1), e1.amount);
    assert g1 == [Group(key(e0), e0.amount + e1.amount, 2)];
    var g2 := AddTo(g1, key(e2), e2.amount);
    assert g1[1..] == [];
    assert AddTo(g1[1..], key(e2), e2.amount) == [Group(key(e2), e2.amount, 1)];
    assert g2 == [Group(key(e0), e0.amount + e1.amount, 2), Group(key(e2), e2.amount, 1)];
    assert Fold(g2, [], key) == g2;
    assert Fold(g1, [e2], key) == g2;
    assert Fold(g0, [e1, e2], key) == g2;
  }

  /** Food 100, Food 50 and Transport 30 summarise to Food 150 over 2, then Transport 30 over 1. */
  lemma CategoryExample()
    ensures var s := Three(Day(0, 100, "Food", 1), Day(1, 50, "Food", 2), Day(2, 30, "Transport", 3));
      Valid(s) && CategorySummary(s).body.categoryRows == [Group("Food", 150, 2), Group("Transport", 30, 1)]
  {
    var e0, e1, e2 := Day(0, 100, "Food", 1), Day(1, 50, "Food", 2), Day(2, 30, "Transport", 3);
    ScanThree(e0, e1, e2);
    GroupThree(e0, e1, e2, CategoryOf);
    var rows := [Group("Food", 150, 2), Group("Transport", 30, 1)];
    assert rows[1..] == [Group("Transport", 30, 1)];
    assert Ordering.Sort(rows[1..], SpentOf) == rows[1..];
    assert Ordering.Sort(rows, SpentOf) == rows;
  }

  /** Documents in months 3, 3 and 1 summarise to exactly two rows, month 1 before month 3. */
  lemma MonthlyExample(monthOf: Date -> Month)
    requires monthOf(1) == 3 && monthOf(2) == 3 && monthOf(3) == 1
    ensures var s := Three(Day(0, 100, "Food", 1), Day(1, 50, "Food", 2), Day(2, 30, "Transport", 3));
      Valid(s) && MonthlySummary(s, monthOf).body.monthRows == [Group(1, 30, 1), Group(3, 150, 2)]
  {
    var e0, e1, e2 := Day(0, 100, "Food", 1), Day(1, 50, "Food", 2), Day(2, 30, "Transport", 3);
    ScanThree(e0, e1, e2);
    var key := MonthKey(monthOf);
    assert key(e0) == 3 && key(e1) == 3 && key(e2) == 1;
    GroupThree(e0, e1, e2, key);
    var g3, g1 := Group(3, 150, 2), Group(1, 30, 1);
    assert GroupBy([e0, e1, e2], key) == [g3, g1];
    SortTwoMonths(g3, g1);
  }

  /** Two month rows come out in ascending month order. */
  lemma SortTwoMonths(later: Group<Month>, earlier: Group<Month>)
    requires earlier.key < later.key
    ensures Ordering.Sort([later, earlier], MonthRank) == [earlier, later]
  {
    assert [later, earlier][1..] == [earlier];
    assert Ordering.Sort([earlier], MonthRank) == [earlier];
    assert Ordering.Insert(later, [], MonthRank) == [later];
    assert Ordering.Insert(later, [earlier], MonthRank) == [earlier, later];
  }
}
