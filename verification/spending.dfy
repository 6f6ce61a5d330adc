/** The spending summary of a customer's account transactions in a window of days. */
module Spending {
  import opened Seqs
  import opened Planner

  datatype Direction = In | Out
  datatype Category = Medical | FixedCost | Other

  datatype Transaction = Transaction(
    customer: string, day: int, time: nat, direction: Direction, category: Category, amount: real)

  const VISIBLE := 30

  datatype Summary = Summary(visible: seq<Transaction>, monthly: int, medical: int, fixed: int, count: nat)

  predicate Newer(a: Transaction, b: Transaction) {
    a.day > b.day || (a.day == b.day && a.time >= b.time)
  }

  /** Newest first, as the ordered query returns the rows. */
  ghost predicate NewestFirst(rows: seq<Transaction>) {
    forall i, j :: 0 <= i < j < |rows| ==> Newer(rows[i], rows[j])
  }

  function Within(customer: string, from: int, to: int): Transaction -> bool {
    (r: Transaction) => r.customer == customer && from <= r.day <= to
  }

  predicate Spent(r: Transaction) { r.direction.Out? }

  /** The outflow of the rows that fall under `c`. */
  function Outflow(rows: seq<Transaction>): real {
    if rows == [] then 0.0 else (if Spent(rows[0]) then rows[0].amount else 0.0) + Outflow(rows[1..])
  }

  function OutflowOf(rows: seq<Transaction>, c: Category): real {
    if rows == [] then 0.0
    else (if Spent(rows[0]) && rows[0].category == c then rows[0].amount else 0.0) + OutflowOf(rows[1..], c)
  }

  function Monthly(rows: seq<Transaction>): real { if rows == [] then 0.0 else Outflow(rows) / 3.0 }

  lemma {:induction false} OutflowSnoc(rows: seq<Transaction>, r: Transaction, c: Category)
    ensures Outflow(rows + [r]) == Outflow(rows) + if Spent(r) then r.amount else 0.0
    ensures OutflowOf(rows + [r], c) == OutflowOf(rows, c) + if Spent(r) && r.category == c then r.amount else 0.0
  {
    if rows == [] {
      assert [] + [r] == [r];
    } else {
      assert (rows + [r])[1..] == rows[1..] + [r];
      OutflowSnoc(rows[1..], r, c);
    }
  }

  lemma {:induction false} KeepNewestFirst(rows: seq<Transaction>, p: Transaction -> bool)
    requires NewestFirst(rows)
    ensures NewestFirst(Keep(rows, p))
  {
    if rows != [] {
      KeepNewestFirst(rows[1..], p);
      var kept := Keep(rows[1..], p);
      forall j | 0 <= j < |kept| ensures Newer(rows[0], kept[j]) {
        assert kept[j] in rows[1..];
      }
    }
  }

  method SumOutflows(rows: seq<Transaction>) returns (outflow: real, medical: real, fixed: real)
    ensures outflow == Outflow(rows)
    ensures medical == OutflowOf(rows, Medical) && fixed == OutflowOf(rows, FixedCost)
  {
    outflow, medical, fixed := 0.0, 0.0, 0.0;
    for n := 0 to |rows|
      invariant outflow == Outflow(rows[..n])
      invariant medical == OutflowOf(rows[..n], Medical) && fixed == OutflowOf(rows[..n], FixedCost)
    {
      var r := rows[n];
      assert rows[..n + 1] == rows[..n] + [r];
      OutflowSnoc(rows[..n], r, Medical);
      OutflowSnoc(rows[..n], r, FixedCost);
      if Spent(r) {
        outflow := outflow + r.amount;
        medical := medical + if r.category == Medical then r.amount else 0.0;
        fixed := fixed + if r.category == FixedCost then r.amount else 0.0;
      }
    }
    assert rows[..|rows|] == rows;
  }

  /** `get_account_transactions`: the sums over the window, and its newest rows for display. */
  method AccountTransactions(table: seq<Transaction>, customer: string, from: int, to: int) returns (s: Summary)
    requires NewestFirst(table)
    ensures var window := Keep(table, Within(customer, from, to));
            && s.count == |window|
            && s.monthly == Truncate(Monthly(window))
            && s.medical == Truncate(OutflowOf(window, Medical)) && s.fixed == Truncate(OutflowOf(window, FixedCost))
            && |s.visible| == (if |window| < 30 then |window| else 30)
            && s.visible <= window
            && forall i, j :: 0 <= i < |s.visible| <= j < |window| ==> Newer(s.visible[i], window[j])
  {
    hide Outflow, OutflowOf, Truncate;
    var rows := Keep(table, Within(customer, from, to));
    KeepNewestFirst(table, Within(customer, from, to));
    var outflow, medical, fixed := SumOutflows(rows);
    var visible := if |rows| < VISIBLE then rows else rows[..VISIBLE];
    s := Summary(visible, Truncate(if rows == [] then 0.0 else outflow / 3.0), Truncate(medical), Truncate(fixed),
                 |rows|);
  }

  lemma {:induction false} PartsOfOutflow(rows: seq<Transaction>)
    requires forall r :: r in rows ==> r.amount >= 0.0
    ensures OutflowOf(rows, Medical) >= 0.0 && OutflowOf(rows, FixedCost) >= 0.0
    ensures OutflowOf(rows, Medical) + OutflowOf(rows, FixedCost) <= Outflow(rows)
  {
    if rows != [] {
      PartsOfOutflow(rows[1..]);
    }
  }

  /** Incoming money counts nowhere, every outgoing amount once in the total and once in its own category. */
  lemma OnlyOutflowCounts(rows: seq<Transaction>, r: Transaction, c: Category)
    ensures r.direction == In ==>
              Outflow(rows + [r]) == Outflow(rows) && OutflowOf(rows + [r], c) == OutflowOf(rows, c)
    ensures r.direction == Out ==>
              && Outflow(rows + [r]) == Outflow(rows) + r.amount
              && OutflowOf(rows + [r], c) == OutflowOf(rows, c) + if r.category == c then r.amount else 0.0
  {
    OutflowSnoc(rows, r, c);
  }

  /** The window holds the customer's rows of the days from `from` to `to`, both included. */
  lemma WindowIsExact(table: seq<Transaction>, customer: string, from: int, to: int, r: Transaction)
    ensures multiset(Keep(table, Within(customer, from, to)))[r]
            == if r.customer == customer && r.day >= from && r.day <= to then multiset(table)[r] else 0
  {
    KeptCopies(table, Within(customer, from, to), r);
  }

  /** The figures shown fit together: medical and fixed cost stay within three months' outflow, up to 2 won. */
  lemma SpendingBound(rows: seq<Transaction>)
    requires forall r :: r in rows ==> r.amount >= 0.0
    ensures 0 <= Truncate(OutflowOf(rows, Medical)) + Truncate(OutflowOf(rows, FixedCost))
              <= 3 * Truncate(Monthly(rows)) + 2
  {
    PartsOfOutflow(rows);
  }

  /** The bound is attained: truncating the month can hide two of three won. */
  lemma BoundIsTight(day: int)
    ensures var rows := [Transaction("", day, 0, Out, Medical, 2.0)];
            Truncate(OutflowOf(rows, Medical)) + Truncate(OutflowOf(rows, FixedCost)) == 3 * Truncate(Monthly(rows)) + 2
  {
    var r := Transaction("", day, 0, Out, Medical, 2.0);
    assert [] + [r] == [r];
    OutflowSnoc([], r, Medical);
    OutflowSnoc([], r, FixedCost);
  }
}
