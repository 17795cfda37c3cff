/** The `transactions` table that both versions of the bot keep in SQLite,
    and the meaning of the queries they run against it: the WHERE filter,
    `SUM(amount)`, and the GROUP BY / ORDER BY of the monthly report. */
module Ledger {

  import opened Wrappers

  /** The `type` column. The handlers only ever write 'income' or 'expense'. */
  datatype Kind = Income | Expense

  /** A calendar day; the `date` column stores it as 'YYYY-MM-DD'. */
  datatype Date = Date(year: int, month: int, day: int)

  /** One row of `transactions`: id, user_id, type, amount, category, date. */
  datatype Tx = Tx(id: nat, userId: int, kind: Kind, amount: int, category: string, date: Date)

  /** The type, amount and category a finished conversation hands to
      `add_transaction`. */
  datatype Entry = Entry(kind: Kind, amount: int, category: string)

  /** A WHERE clause: `user_id = ? AND type = ?`, and for the monthly report
      also `strftime('%Y-%m', date) = ?`, the year and month of today. */
  datatype Query = Query(userId: int, kind: Kind, month: Option<(int, int)>)

  predicate Matches(t: Tx, q: Query) {
    && t.userId == q.userId
    && t.kind == q.kind
    && (q.month.Some? ==> (t.date.year, t.date.month) == q.month.value)
  }

  /** The two queries of `get_balance`: all of one user's rows of one type. */
  function BalanceQuery(u: int, kind: Kind): Query {
    Query(u, kind, None)
  }

  /** The query of `get_monthly_stats`: one user's expense rows dated in
      the month of `today`. */
  function MonthQuery(u: int, today: Date): Query {
    Query(u, Expense, Some((today.year, today.month)))
  }

  /** The rows a query selects, in table order. */
  function Select(rows: seq<Tx>, q: Query): (r: seq<Tx>)
    ensures |r| <= |rows|
    ensures forall t :: t in r <==> t in rows && Matches(t, q)
  {
    if rows == [] then []
    else (if Matches(rows[0], q) then [rows[0]] else []) + Select(rows[1..], q)
  }

  /** `SUM(amount)` over rows, taking the empty sum as 0. */
  function Sum(rows: seq<Tx>): int {
    if rows == [] then 0 else rows[0].amount + Sum(rows[1..])
  }

  /** SQL's `SUM(amount)` as the database returns it: NULL over no rows. */
  function SqlSum(rows: seq<Tx>): (r: Option<int>)
    ensures r.None? <==> rows == []
    ensures r.Some? ==> r.value == Sum(rows)
  {
    if rows == [] then None else Some(Sum(rows))
  }

  /** Filtering a concatenation filters each part. */
  lemma {:induction false} SelectAppend(a: seq<Tx>, b: seq<Tx>, q: Query)
    ensures Select(a + b, q) == Select(a, q) + Select(b, q)
  {
    if a != [] {
      assert (a + b)[1..] == a[1..] + b;
      SelectAppend(a[1..], b, q);
    } else {
      assert a + b == b;
    }
  }

  /** Summing a concatenation sums each part. */
  lemma {:induction false} SumAppend(a: seq<Tx>, b: seq<Tx>)
    ensures Sum(a + b) == Sum(a) + Sum(b)
  {
    if a != [] {
      assert (a + b)[1..] == a[1..] + b;
      SumAppend(a[1..], b);
    } else {
      assert a + b == b;
    }
  }

  /** One inserted row changes the SUM of exactly the queries it matches,
      by its own amount; a matching row turns a NULL sum into its amount. */
  lemma SumAfterInsert(rows: seq<Tx>, t: Tx, q: Query)
    ensures SqlSum(Select(rows + [t], q))
         == if Matches(t, q) then Some(Sum(Select(rows, q)) + t.amount)
            else SqlSum(Select(rows, q))
  {
    var sel := Select(rows, q);
    SelectAppend(rows, [t], q);
    SelectSingle(t, q);
    if Matches(t, q) {
      SumAppend(sel, [t]);
      SumSingle(t);
    } else {
      assert sel + [] == sel;
    }
  }

  /** The query over a single row. */
  lemma SelectSingle(t: Tx, q: Query)
    ensures Select([t], q) == if Matches(t, q) then [t] else []
  {
    assert [t][1..] == [];
  }

  /** The sum of a single row. */
  lemma SumSingle(t: Tx)
    ensures Sum([t]) == t.amount
  {
    assert [t][1..] == [];
  }

  /** Rows that a query does not match leave its SUM alone, wherever they
      were added: other users' rows, rows of the other type, other months. */
  lemma SumIgnoresUnmatched(rows: seq<Tx>, other: seq<Tx>, q: Query)
    requires forall t :: t in other ==> !Matches(t, q)
    ensures SqlSum(Select(rows + other, q)) == SqlSum(Select(rows, q))
  {
    SelectAppend(rows, other, q);
    SelectNone(other, q);
    assert Select(rows, q) + [] == Select(rows, q);
  }

  /** SQL's SUM is NULL exactly when no row matches the query. */
  lemma SqlSumIsNull(rows: seq<Tx>, q: Query)
    ensures SqlSum(Select(rows, q)).None? <==> forall t :: t in rows ==> !Matches(t, q)
  {
    if forall t :: t in rows ==> !Matches(t, q) {
      SelectNone(rows, q);
    } else {
      var t :| t in rows && Matches(t, q);
      assert t in Select(rows, q);
    }
  }

  /** A query selects nothing from rows none of which it matches. */
  lemma {:induction false} SelectNone(rows: seq<Tx>, q: Query)
    requires forall t :: t in rows ==> !Matches(t, q)
    ensures Select(rows, q) == []
  {
    if rows != [] {
      assert rows[0] in rows;
      SelectNone(rows[1..], q);
    }
  }

  // ----- the monthly report: GROUP BY category ORDER BY total DESC -----

  /** One line of the monthly report: a category and its summed amount. */
  type CategoryTotal = (string, int)

  /** The rows of one GROUP BY bucket. */
  function InCategory(rows: seq<Tx>, c: string): (r: seq<Tx>)
    ensures forall t :: t in r <==> t in rows && t.category == c
  {
    if rows == [] then []
    else (if rows[0].category == c then [rows[0]] else []) + InCategory(rows[1..], c)
  }

  predicate DistinctKeys(s: seq<CategoryTotal>) {
    forall i, j :: 0 <= i < j < |s| ==> s[i].0 != s[j].0
  }

  predicate Descending(s: seq<CategoryTotal>) {
    forall i, j :: 0 <= i < j < |s| ==> s[i].1 >= s[j].1
  }

  /** The categories a report lists. */
  function Keys(report: seq<CategoryTotal>): set<string> {
    set p | p in report :: p.0
  }

  /** The categories that occur among some rows. */
  function Categories(rows: seq<Tx>): set<string> {
    set t | t in rows :: t.category
  }

  /** What `GROUP BY category ORDER BY total DESC` may return for the rows
      `src`: one pair per distinct category of `src`, each carrying the sum
      of that category's amounts, the largest total first. SQL leaves the
      order among equal totals open, and so does this predicate. */
  ghost predicate IsCategoryReport(src: seq<Tx>, report: seq<CategoryTotal>) {
    && DistinctKeys(report)
    && Keys(report) == Categories(src)
    && (forall p :: p in report ==> p.1 == Sum(InCategory(src, p.0)))
    && Descending(report)
  }

  /** The distinct categories of `rows`. */
  function CategoriesOf(rows: seq<Tx>): (cs: seq<string>)
    ensures forall i, j :: 0 <= i < j < |cs| ==> cs[i] != cs[j]
    ensures (set c | c in cs) == Categories(rows)
  {
    if rows == [] then []
    else
      var rest := CategoriesOf(rows[1..]);
      assert Categories(rows) == {rows[0].category} + Categories(rows[1..]);
      if rows[0].category in rest then rest else [rows[0].category] + rest
  }

  /** A pair no smaller than every pair of a descending report can head it. */
  lemma ConsDescending(x: CategoryTotal, t: seq<CategoryTotal>)
    requires Descending(t)
    requires forall q :: q in t ==> x.1 >= q.1
    ensures Descending([x] + t)
  {
    var r := [x] + t;
    forall i, j | 0 <= i < j < |r| ensures r[i].1 >= r[j].1 {
      assert r[j] == t[j - 1];
      if i > 0 {
        assert r[i] == t[i - 1];
      }
    }
  }

  /** A pair whose category is new can head a report with distinct categories. */
  lemma ConsDistinct(x: CategoryTotal, t: seq<CategoryTotal>)
    requires DistinctKeys(t)
    requires forall q :: q in t ==> x.0 != q.0
    ensures DistinctKeys([x] + t)
  {
    var r := [x] + t;
    forall i, j | 0 <= i < j < |r| ensures r[i].0 != r[j].0 {
      assert r[j] == t[j - 1];
      if i > 0 {
        assert r[i] == t[i - 1];
      }
    }
  }

  /** The first case of `Insert`: a pair no smaller than the head of a
      report goes in front of it. */
  lemma InsertAtFront(p: CategoryTotal, s: seq<CategoryTotal>)
    requires s == [] || p.1 >= s[0].1
    ensures Descending(s) ==> Descending([p] + s)
    ensures DistinctKeys(s) && (forall q :: q in s ==> q.0 != p.0) ==> DistinctKeys([p] + s)
  {
    if Descending(s) {
      forall q | q in s ensures p.1 >= q.1 {
        var k :| 0 <= k < |s| && s[k] == q;
        assert k == 0 || s[0].1 >= s[k].1;
      }
      ConsDescending(p, s);
    }
    if DistinctKeys(s) && (forall q :: q in s ==> q.0 != p.0) {
      ConsDistinct(p, s);
    }
  }

  /** The second case of `Insert`: the head of the report stays in front
      of the rest with the pair inserted. */
  lemma InsertBehind(p: CategoryTotal, s: seq<CategoryTotal>, tail: seq<CategoryTotal>)
    requires s != [] && p.1 < s[0].1
    requires multiset(tail) == multiset(s[1..]) + multiset{p}
    requires Descending(s[1..]) ==> Descending(tail)
    requires DistinctKeys(s[1..]) && (forall q :: q in s[1..] ==> q.0 != p.0) ==> DistinctKeys(tail)
    ensures Descending(s) ==> Descending([s[0]] + tail)
    ensures DistinctKeys(s) && (forall q :: q in s ==> q.0 != p.0) ==> DistinctKeys([s[0]] + tail)
  {
    forall q | q in tail ensures q == p || q in s[1..] {
      assert q in multiset(tail);
    }
    if Descending(s) {
      BehindDescending(p, s, tail);
    }
    if DistinctKeys(s) && (forall q :: q in s ==> q.0 != p.0) {
      BehindDistinct(p, s, tail);
    }
  }

  lemma BehindDescending(p: CategoryTotal, s: seq<CategoryTotal>, tail: seq<CategoryTotal>)
    requires s != [] && p.1 < s[0].1 && Descending(s)
    requires forall q :: q in tail ==> q == p || q in s[1..]
    requires Descending(s[1..]) ==> Descending(tail)
    ensures Descending([s[0]] + tail)
  {
    forall q | q in tail ensures s[0].1 >= q.1 {
      if q != p {
        var k :| 0 <= k < |s[1..]| && s[1..][k] == q;
        assert s[k + 1] == q;
      }
    }
    assert Descending(s[1..]);
    ConsDescending(s[0], tail);
  }

  lemma BehindDistinct(p: CategoryTotal, s: seq<CategoryTotal>, tail: seq<CategoryTotal>)
    requires s != [] && DistinctKeys(s) && (forall q :: q in s ==> q.0 != p.0)
    requires forall q :: q in tail ==> q == p || q in s[1..]
    requires DistinctKeys(s[1..]) && (forall q :: q in s[1..] ==> q.0 != p.0) ==> DistinctKeys(tail)
    ensures DistinctKeys([s[0]] + tail)
  {
    assert DistinctKeys(s[1..]);
    assert s[0] in s;
    forall q | q in tail ensures s[0].0 != q.0 {
      if q != p {
        var k :| 0 <= k < |s[1..]| && s[1..][k] == q;
        assert s[k + 1] == q;
      }
    }
    ConsDistinct(s[0], tail);
  }

  /** Inserts one pair into a report sorted by total, largest first. */
  function Insert(p: CategoryTotal, s: seq<CategoryTotal>): (r: seq<CategoryTotal>)
    ensures multiset(r) == multiset(s) + multiset{p}
    ensures Descending(s) ==> Descending(r)
    ensures DistinctKeys(s) && (forall q :: q in s ==> q.0 != p.0) ==> DistinctKeys(r)
  {
    if s == [] || p.1 >= s[0].1 then
      InsertAtFront(p, s);
      [p] + s
    else
      var tail := Insert(p, s[1..]);
      assert s == [s[0]] + s[1..];
      InsertBehind(p, s, tail);
      [s[0]] + tail
  }

  /** `ORDER BY total DESC`, by insertion. */
  function SortByTotal(s: seq<CategoryTotal>): (r: seq<CategoryTotal>)
    ensures multiset(r) == multiset(s)
    ensures Descending(r)
    ensures DistinctKeys(s) ==> DistinctKeys(r)
  {
    if s == [] then []
    else
      var head, rest := s[0], s[1..];
      assert s == [head] + rest;
      var sorted := SortByTotal(rest);
      HeadKeyFresh(s, sorted);
      Insert(head, sorted)
  }

  /** The step of `SortByTotal`: with distinct categories, the head's
      category is not among the sorted rest. */
  lemma HeadKeyFresh(s: seq<CategoryTotal>, sorted: seq<CategoryTotal>)
    requires s != [] && multiset(sorted) == multiset(s[1..])
    ensures DistinctKeys(s) ==> DistinctKeys(s[1..]) && forall q :: q in sorted ==> q.0 != s[0].0
  {
    if DistinctKeys(s) {
      forall q | q in sorted ensures q.0 != s[0].0 {
        assert q in multiset(s[1..]);
        var k :| 0 <= k < |s[1..]| && s[1..][k] == q;
        assert s[k + 1] == q;
      }
    }
  }

  /** `get_monthly_stats`: the report over the user's expense rows of the
      month of `today`. */
  function MonthlyStats(rows: seq<Tx>, u: int, today: Date): (report: seq<CategoryTotal>)
    ensures IsCategoryReport(Select(rows, MonthQuery(u, today)), report)
  {
    var src := Select(rows, MonthQuery(u, today));
    var cs := CategoriesOf(src);
    var groups := seq(|cs|, i requires 0 <= i < |cs| => (cs[i], Sum(InCategory(src, cs[i]))));
    var report := SortByTotal(groups);
    GroupsAreReport(src, cs, groups, report);
    report
  }

  /** The proof obligation of `MonthlyStats`: sorting the groups loses no
      group and duplicates none. */
  lemma GroupsAreReport(src: seq<Tx>, cs: seq<string>, groups: seq<CategoryTotal>,
                        report: seq<CategoryTotal>)
    requires forall i, j :: 0 <= i < j < |cs| ==> cs[i] != cs[j]
    requires (set c | c in cs) == Categories(src)
    requires |groups| == |cs|
    requires forall i :: 0 <= i < |cs| ==> groups[i] == (cs[i], Sum(InCategory(src, cs[i])))
    requires multiset(report) == multiset(groups) && Descending(report)
    requires DistinctKeys(groups) ==> DistinctKeys(report)
    ensures IsCategoryReport(src, report)
  {
    forall p | p in report ensures p in groups {
      assert p in multiset(report);
    }
    forall p | p in groups ensures p in report {
      assert p in multiset(groups);
    }
    assert Keys(report) == Keys(groups);
    assert Keys(groups) == (set c | c in cs) by {
      forall c | c in cs ensures c in Keys(groups) {
        var i :| 0 <= i < |cs| && cs[i] == c;
        assert groups[i] in groups;
      }
    }
  }

  /** In a sequence with no repeated element every element occurs once. */
  lemma {:induction false} DistinctOccursOnce(s: seq<CategoryTotal>, x: CategoryTotal)
    requires DistinctKeys(s)
    ensures multiset(s)[x] == if x in s then 1 else 0
  {
    if s != [] {
      assert s == [s[0]] + s[1..];
      DistinctOccursOnce(s[1..], x);
      assert DistinctKeys(s[1..]);
      if s[0] == x {
        assert x !in s[1..];
      }
    }
  }

  /** The report is determined by the rows up to the order of equal totals:
      any two reports that satisfy `IsCategoryReport` for the same rows hold
      the same pairs. */
  lemma CategoryReportUnique(src: seq<Tx>, a: seq<CategoryTotal>, b: seq<CategoryTotal>)
    requires IsCategoryReport(src, a) && IsCategoryReport(src, b)
    ensures multiset(a) == multiset(b)
  {
    forall p | p in a ensures p in b {
      assert p.0 in Keys(a);
      var q :| q in b && q.0 == p.0;
    }
    forall p | p in b ensures p in a {
      assert p.0 in Keys(b);
      var q :| q in a && q.0 == p.0;
    }
    forall x ensures multiset(a)[x] == multiset(b)[x] {
      DistinctOccursOnce(a, x);
      DistinctOccursOnce(b, x);
    }
  }

  /** A row outside the monthly query (another user, an income, another
      month) leaves the monthly report unchanged. */
  lemma StatsIgnoreUnmatched(rows: seq<Tx>, t: Tx, u: int, today: Date)
    requires !Matches(t, MonthQuery(u, today))
    ensures MonthlyStats(rows + [t], u, today) == MonthlyStats(rows, u, today)
  {
    var q := MonthQuery(u, today);
    SelectAppend(rows, [t], q);
    assert Select([t], q) == [];
    assert Select(rows, q) + [] == Select(rows, q);
  }
}
