/**
 * The `$group` stage of the two summary pipelines: one row per distinct key,
 * with the sum of the amounts and the number of documents under that key.
 * The fold below visits documents one at a time as the stage does; `SumBy` and
 * `CountBy` are the reference it is proved against.
 */
module Aggregation {
  import opened ExpenseSchema
  import Ordering

  /** One summary row: `key` is the `_id` of the group. */
  datatype Group<K> = Group(key: K, totalSpent: int, count: nat)

  /** The grouping key of the category summary. */
  function CategoryOf(e: Expense): string {
    e.category
  }

  /** The key of a row, as a function value. */
  function KeyOf<K>(g: Group<K>): K {
    g.key
  }

  /** The `totalSpent` of a row, the rank of the category summary's sort. */
  function SpentOf<K>(g: Group<K>): int {
    g.totalSpent
  }

  /** Sum of the amounts of the documents of `xs` whose key is `k`. */
  function SumBy<K(==)>(xs: seq<Expense>, key: Expense -> K, k: K): int {
    if xs == [] then 0
    else (if key(xs[0]) == k then xs[0].amount else 0) + SumBy(xs[1..], key, k)
  }

  /** Number of documents of `xs` whose key is `k`. */
  function CountBy<K(==)>(xs: seq<Expense>, key: Expense -> K, k: K): nat {
    if xs == [] then 0
    else (if key(xs[0]) == k then 1 else 0) + CountBy(xs[1..], key, k)
  }

  /** The keys that occur in `xs`. */
  ghost function KeysIn<K>(xs: seq<Expense>, key: Expense -> K): set<K> {
    set e | e in xs :: key(e)
  }

  /** The keys of a list of rows. */
  ghost function KeysOf<K>(rows: seq<Group<K>>): set<K> {
    set g | g in rows :: g.key
  }

  /** No two rows share a key. */
  ghost predicate DistinctKeys<K>(rows: seq<Group<K>>) {
    Ordering.DistinctBy(rows, KeyOf)
  }

  /** The running total of the row keyed `k`, zero when there is none yet. */
  function TotalOf<K(==)>(rows: seq<Group<K>>, k: K): int {
    if rows == [] then 0
    else if rows[0].key == k then rows[0].totalSpent
    else TotalOf(rows[1..], k)
  }

  /** The running count of the row keyed `k`, zero when there is none yet. */
  function CountOf<K(==)>(rows: seq<Group<K>>, k: K): nat {
    if rows == [] then 0
    else if rows[0].key == k then rows[0].count
    else CountOf(rows[1..], k)
  }

  /**
   * Accumulates one document with key `k` and amount `amount`: the row for `k`
   * grows by the amount and by one, or a new row is opened at the end.
   */
  function AddTo<K(==,!new)>(rows: seq<Group<K>>, k: K, amount: int): (r: seq<Group<K>>)
    requires DistinctKeys(rows)
    ensures DistinctKeys(r)
    ensures KeysOf(r) == KeysOf(rows) + {k}
    ensures forall j :: TotalOf(r, j) == TotalOf(rows, j) + (if j == k then amount else 0)
    ensures forall j :: CountOf(r, j) == CountOf(rows, j) + (if j == k then 1 else 0)
  {
    if rows == [] then
      ConsRow(Group(k, amount, 1), []);
      [Group(k, amount, 1)]
    else
      var head := rows[0];
      DistinctTailKeys(rows);
      ConsRow(head, rows[1..]);
      if head.key == k then
        var first := Group(k, head.totalSpent + amount, head.count + 1);
        ConsRow(first, rows[1..]);
        [first] + rows[1..]
      else
        var rest := AddTo(rows[1..], k, amount);
        ConsRow(head, rest);
        [head] + rest
  }

  /** How a row put in front of others is seen by the key set and the two lookups. */
  lemma ConsRow<K>(head: Group<K>, rest: seq<Group<K>>)
    ensures KeysOf([head] + rest) == {head.key} + KeysOf(rest)
    ensures forall j :: TotalOf([head] + rest, j) == if j == head.key then head.totalSpent else TotalOf(rest, j)
    ensures forall j :: CountOf([head] + rest, j) == if j == head.key then head.count else CountOf(rest, j)
    ensures DistinctKeys(rest) && head.key !in KeysOf(rest) ==> DistinctKeys([head] + rest)
  {
    var r := [head] + rest;
    assert r[1..] == rest;
    forall x | x in KeysOf(r) ensures x in {head.key} + KeysOf(rest) {
      var g :| g in r && g.key == x;
      if g != head {
        assert g in rest;
      }
    }
    forall x | x in {head.key} + KeysOf(rest) ensures x in KeysOf(r) {
      if x != head.key {
        var g :| g in rest && g.key == x;
        assert g in r;
      }
    }
    if DistinctKeys(rest) && head.key !in KeysOf(rest) {
      forall i, j | 0 <= i < j < |r| ensures r[i].key != r[j].key {
        assert r[j] == rest[j - 1];
        if i == 0 {
          assert rest[j - 1].key in KeysOf(rest);
        } else {
          assert r[i] == rest[i - 1];
        }
      }
    }
  }

  /** Dropping the first row keeps the keys distinct, and the first key is not among the others. */
  lemma DistinctTailKeys<K>(rows: seq<Group<K>>)
    requires rows != [] && DistinctKeys(rows)
    ensures DistinctKeys(rows[1..])
    ensures rows[0].key !in KeysOf(rows[1..])
  {
    Ordering.DistinctTail(rows, KeyOf);
    forall g | g in rows[1..] ensures KeyOf(g) != KeyOf(rows[0]) {
    }
  }

  /** Folds the documents of `xs`, first to last, into `rows`. */
  function Fold<K(==,!new)>(rows: seq<Group<K>>, xs: seq<Expense>, key: Expense -> K): (r: seq<Group<K>>)
    requires DistinctKeys(rows)
    ensures DistinctKeys(r)
    ensures KeysOf(r) == KeysOf(rows) + KeysIn(xs, key)
    ensures forall j :: TotalOf(r, j) == TotalOf(rows, j) + SumBy(xs, key, j)
    ensures forall j :: CountOf(r, j) == CountOf(rows, j) + CountBy(xs, key, j)
    decreases xs
  {
    if xs == [] then
      rows
    else
      assert xs == [xs[0]] + xs[1..];
      assert KeysIn(xs, key) == {key(xs[0])} + KeysIn(xs[1..], key);
      Fold(AddTo(rows, key(xs[0]), xs[0].amount), xs[1..], key)
  }

  /** In rows with distinct keys, looking up a row's key finds that row. */
  lemma {:induction false} LookupFindsRow<K>(rows: seq<Group<K>>, g: Group<K>)
    requires DistinctKeys(rows) && g in rows
    ensures TotalOf(rows, g.key) == g.totalSpent
    ensures CountOf(rows, g.key) == g.count
  {
    if rows[0] != g {
      DistinctTailKeys(rows);
      assert g in rows[1..];
      assert g.key in KeysOf(rows[1..]);
      LookupFindsRow(rows[1..], g);
    }
  }

  /** A key that occurs in `xs` is counted at least once. */
  lemma {:induction false} OccurringKeyCounted<K>(xs: seq<Expense>, key: Expense -> K, k: K)
    requires k in KeysIn(xs, key)
    ensures CountBy(xs, key, k) > 0
  {
    if key(xs[0]) != k {
      var e :| e in xs && key(e) == k;
      assert e in xs[1..];
      OccurringKeyCounted(xs[1..], key, k);
    }
  }

  /**
   * The `$group` stage: one row per key occurring in `xs`, no key twice, each
   * row carrying the sum and the number of that key's documents.
   */
  function GroupBy<K(==,!new)>(xs: seq<Expense>, key: Expense -> K): (r: seq<Group<K>>)
    ensures DistinctKeys(r)
    ensures KeysOf(r) == KeysIn(xs, key)
    ensures forall g :: g in r ==> g.totalSpent == SumBy(xs, key, g.key) && g.count == CountBy(xs, key, g.key)
    ensures forall g :: g in r ==> g.count > 0
  {
    var r := Fold([], xs, key);
    forall g | g in r ensures g.totalSpent == SumBy(xs, key, g.key) && g.count == CountBy(xs, key, g.key) && g.count > 0 {
      LookupFindsRow(r, g);
      assert g.key in KeysOf(r);
      OccurringKeyCounted(xs, key, g.key);
    }
    r
  }

  /**
   * A summary pipeline: the `$group` stage followed by a `$sort` stage on
   * `rank`. Sorting keeps every row and makes no two share a key.
   */
  function Summarise<K(==,!new)>(xs: seq<Expense>, key: Expense -> K, rank: Group<K> -> int): (r: seq<Group<K>>)
    ensures Ordering.SortedBy(r, rank)
    ensures DistinctKeys(r)
    ensures KeysOf(r) == KeysIn(xs, key)
    ensures forall g :: g in r ==> g.totalSpent == SumBy(xs, key, g.key) && g.count == CountBy(xs, key, g.key)
    ensures forall g :: g in r ==> g.count > 0
  {
    var groups := GroupBy(xs, key);
    Ordering.SortSameElements(groups, rank);
    Ordering.SortKeepsDistinct(groups, rank, KeyOf);
    var rows := Ordering.Sort(groups, rank);
    assert KeysOf(rows) == KeysOf(groups);
    rows
  }
}
