/** The ledger summary of the expense service: totals, status counts and a category breakdown,
    and how they agree with one another and with the settlement's own totals. */
module LedgerSummary {
  import opened Common
  import opened Ledger

  datatype CategoryRow = CategoryRow(category: Category, claimed: int, verified: int, disallowed: int, count: nat)

  datatype Summary = Summary(
    claimed: int,
    verified: int,
    disallowed: int,
    count: nat,
    statusCounts: map<ExpenseStatus, nat>,
    breakdown: seq<CategoryRow>
  )

  // ---------- what each row contributes ----------

  /** Claimed spend leaves disallowed claims out. */
  function LiveClaim(e: Expense): int { if e.status.Disallowed? then 0 else e.claimed }

  function ClearedAmount(e: Expense): int { if e.Cleared() && e.verified.Some? then e.verified.value else 0 }

  function DisallowedSpend(e: Expense): int { e.DisallowedAmount() }

  function DisallowedClaim(e: Expense): int { if e.status.Disallowed? then e.claimed else 0 }

  // ---------- reference definitions ----------

  function StatusCount(s: ExpenseStatus, expenses: seq<Expense>): nat {
    if expenses == [] then 0
    else
      var n := |expenses| - 1;
      StatusCount(s, expenses[..n]) + (if expenses[n].status == s then 1 else 0)
  }

  function Plus(row: CategoryRow, e: Expense): CategoryRow {
    row.(claimed := row.claimed + LiveClaim(e), verified := row.verified + ClearedAmount(e),
         disallowed := row.disallowed + DisallowedSpend(e), count := row.count + 1)
  }

  /** The row of one category: the sums over the expenses in that category. */
  function RowOf(c: Category, expenses: seq<Expense>): (row: CategoryRow)
    ensures row.category == c
    ensures row.count == 0 ==> row == CategoryRow(c, 0, 0, 0, 0)
  {
    if expenses == [] then CategoryRow(c, 0, 0, 0, 0)
    else
      var n := |expenses| - 1;
      var rest := RowOf(c, expenses[..n]);
      if expenses[n].category == c then Plus(rest, expenses[n]) else rest
  }

  /** The categories in the order their names sort. */
  function CategoryAt(r: nat): Category
    requires r < CATEGORIES
  {
    match r
    case 0 => Catering
    case 1 => Decoration
    case 2 => Honorarium
    case 3 => Materials
    case 4 => Other
    case 5 => Printing
    case 6 => Technology
    case 7 => Transport
    case _ => Venue
  }

  const CATEGORIES := 9

  function Rank(c: Category): (r: nat)
    ensures r < CATEGORIES
  {
    match c
    case Catering => 0
    case Decoration => 1
    case Honorarium => 2
    case Materials => 3
    case Other => 4
    case Printing => 5
    case Technology => 6
    case Transport => 7
    case Venue => 8
  }

  lemma RankIsPosition(r: nat, c: Category)
    requires r < CATEGORIES
    ensures Rank(CategoryAt(r)) == r && CategoryAt(Rank(c)) == c
  {
  }

  function Rows(expenses: seq<Expense>, n: nat): (rows: seq<CategoryRow>)
    requires n <= CATEGORIES
    ensures |rows| == n && forall k :: 0 <= k < n ==> rows[k] == RowOf(CategoryAt(k), expenses)
  {
    seq(n, k requires 0 <= k < n => RowOf(CategoryAt(k), expenses))
  }

  function WithRow(rows: seq<CategoryRow>, row: CategoryRow): seq<CategoryRow> {
    if row.count > 0 then rows + [row] else rows
  }

  /** The rows of the categories that occur, among the first `n`. */
  function Occurring(expenses: seq<Expense>, n: nat): seq<CategoryRow>
    requires n <= CATEGORIES
  {
    if n == 0 then [] else WithRow(Occurring(expenses, n - 1), RowOf(CategoryAt(n - 1), expenses))
  }

  // ---------- the loop ----------

  ghost predicate CountsStatuses(counts: map<ExpenseStatus, nat>, expenses: seq<Expense>) {
    forall st :: (st in counts <==> StatusCount(st, expenses) > 0)
              && (st in counts ==> counts[st] == StatusCount(st, expenses))
  }

  ghost predicate GroupsCategories(stats: map<Category, CategoryRow>, expenses: seq<Expense>) {
    forall c :: (c in stats <==> RowOf(c, expenses).count > 0)
             && (c in stats ==> stats[c] == RowOf(c, expenses))
  }

  lemma {:induction false} OneMoreStatus(counts: map<ExpenseStatus, nat>, expenses: seq<Expense>, e: Expense)
    requires CountsStatuses(counts, expenses)
    ensures var seen := if e.status in counts then counts[e.status] else 0;
            CountsStatuses(counts[e.status := seen + 1], expenses + [e])
  {
    assert (expenses + [e])[..|expenses|] == expenses;
  }

  lemma {:induction false} OneMoreRow(stats: map<Category, CategoryRow>, expenses: seq<Expense>, e: Expense)
    requires GroupsCategories(stats, expenses)
    ensures var row := if e.category in stats then stats[e.category] else CategoryRow(e.category, 0, 0, 0, 0);
            GroupsCategories(stats[e.category := Plus(row, e)], expenses + [e])
  {
    assert (expenses + [e])[..|expenses|] == expenses;
  }

  /** What one expense adds to the totals, in the order the summary adds it. */
  method Add(row: CategoryRow, e: Expense) returns (row': CategoryRow)
    ensures row' == Plus(row, e)
  {
    row' := row;
    if !e.status.Disallowed? { row' := row'.(claimed := row'.claimed + e.claimed); }
    if e.Cleared() && e.verified.Some? { row' := row'.(verified := row'.verified + e.verified.value); }
    if e.Cleared() || e.status.Disallowed? { row' := row'.(disallowed := row'.disallowed + e.DisallowedAmount()); }
    row' := row'.(count := row'.count + 1);
  }

  /** The grouped rows, listed in name order. */
  method Breakdown(stats: map<Category, CategoryRow>, ghost expenses: seq<Expense>) returns (rows: seq<CategoryRow>)
    requires GroupsCategories(stats, expenses)
    ensures rows == Occurring(expenses, CATEGORIES)
  {
    rows := [];
    for k := 0 to CATEGORIES
      invariant rows == Occurring(expenses, k)
    {
      var c := CategoryAt(k);
      if c in stats { rows := rows + [stats[c]]; }
    }
  }

  /** The totals are the sums, the counts those of the statuses that occur, and the breakdown one
      row for each category that occurs, in name order. */
  ghost predicate Summarises(s: Summary, expenses: seq<Expense>) {
    && s.claimed == Sum(expenses, LiveClaim)
    && s.verified == Sum(expenses, ClearedAmount)
    && s.disallowed == Sum(expenses, DisallowedSpend)
    && s.count == |expenses|
    && CountsStatuses(s.statusCounts, expenses)
    && s.breakdown == Occurring(expenses, CATEGORIES)
  }

  method Summarise(expenses: seq<Expense>) returns (s: Summary)
    ensures Summarises(s, expenses)
  {
    var totals := CategoryRow(Other, 0, 0, 0, 0);
    var statusCounts: map<ExpenseStatus, nat> := map[];
    var stats: map<Category, CategoryRow> := map[];
    for k := 0 to |expenses|
      invariant totals.claimed == Sum(expenses[..k], LiveClaim)
      invariant totals.verified == Sum(expenses[..k], ClearedAmount)
      invariant totals.disallowed == Sum(expenses[..k], DisallowedSpend)
      invariant totals.count == k
      invariant CountsStatuses(statusCounts, expenses[..k])
      invariant GroupsCategories(stats, expenses[..k])
    {
      var e := expenses[k];
      assert expenses[..k + 1] == expenses[..k] + [e] && expenses[..k + 1][..k] == expenses[..k];
      OneMoreStatus(statusCounts, expenses[..k], e);
      OneMoreRow(stats, expenses[..k], e);
      var seen := if e.status in statusCounts then statusCounts[e.status] else 0;
      statusCounts := statusCounts[e.status := seen + 1];
      totals := Add(totals, e);
      var row := if e.category in stats then stats[e.category] else CategoryRow(e.category, 0, 0, 0, 0);
      row := Add(row, e);
      stats := stats[e.category := row];
    }
    assert expenses[..|expenses|] == expenses;

    var breakdown := Breakdown(stats, expenses);
    s := Summary(totals.claimed, totals.verified, totals.disallowed, totals.count, statusCounts, breakdown);
  }

  // ---------- the summary agrees with itself ----------

  function RowClaimed(r: CategoryRow): int { r.claimed }

  function RowVerified(r: CategoryRow): int { r.verified }

  function RowDisallowed(r: CategoryRow): int { r.disallowed }

  function RowCount(r: CategoryRow): int { r.count }

  lemma {:induction false} EmptyRows(n: nat, f: CategoryRow -> int)
    requires n <= CATEGORIES
    requires forall c :: f(CategoryRow(c, 0, 0, 0, 0)) == 0
    ensures Sum(Rows([], n), f) == 0
  {
    if n > 0 {
      EmptyRows(n - 1, f);
      assert Rows([], n)[..n - 1] == Rows([], n - 1);
    }
  }

  /** One more expense moves exactly one category row. */
  lemma {:induction false} RowsOfOneMore(expenses: seq<Expense>, e: Expense, f: CategoryRow -> int)
    ensures var all := CATEGORIES;
            var row := RowOf(e.category, expenses);
            Sum(Rows(expenses + [e], all), f) == Sum(Rows(expenses, all), f) - f(row) + f(Plus(row, e))
  {
    var all, more := Rows(expenses, CATEGORIES), Rows(expenses + [e], CATEGORIES);
    var at := Rank(e.category);
    assert (expenses + [e])[..|expenses|] == expenses;
    forall k | 0 <= k < CATEGORIES
      ensures more[k] == all[at := Plus(all[at], e)][k]
    {
      RankIsPosition(k, e.category);
    }
    assert more == all[at := Plus(all[at], e)];
    SumOfUpdate(all, at, Plus(all[at], e), f);
  }

  lemma {:induction false} RowsSumToTotals(expenses: seq<Expense>)
    ensures var rows := Rows(expenses, CATEGORIES);
            && Sum(rows, RowClaimed) == Sum(expenses, LiveClaim)
            && Sum(rows, RowVerified) == Sum(expenses, ClearedAmount)
            && Sum(rows, RowDisallowed) == Sum(expenses, DisallowedSpend)
            && Sum(rows, RowCount) == |expenses|
  {
    if expenses == [] {
      EmptyRows(CATEGORIES, RowClaimed);
      EmptyRows(CATEGORIES, RowVerified);
      EmptyRows(CATEGORIES, RowDisallowed);
      EmptyRows(CATEGORIES, RowCount);
    } else {
      var n := |expenses| - 1;
      var front, e := expenses[..n], expenses[n];
      assert expenses == front + [e];
      RowsSumToTotals(front);
      RowsOfOneMore(front, e, RowClaimed);
      RowsOfOneMore(front, e, RowVerified);
      RowsOfOneMore(front, e, RowDisallowed);
      RowsOfOneMore(front, e, RowCount);
    }
  }

  lemma SumOfRows(expenses: seq<Expense>, n: nat, f: CategoryRow -> int)
    requires 0 < n <= CATEGORIES
    ensures Sum(Rows(expenses, n), f) == Sum(Rows(expenses, n - 1), f) + f(RowOf(CategoryAt(n - 1), expenses))
  {
    assert Rows(expenses, n)[..n - 1] == Rows(expenses, n - 1);
  }

  lemma SumOfWithRow(rows: seq<CategoryRow>, row: CategoryRow, f: CategoryRow -> int)
    requires row.count == 0 ==> f(row) == 0
    ensures Sum(WithRow(rows, row), f) == Sum(rows, f) + f(row)
  {
    SumOfAppend(rows, row, f);
  }

  /** Leaving out the categories that do not occur loses nothing. */
  lemma {:induction false} OccurringSum(expenses: seq<Expense>, n: nat, f: CategoryRow -> int)
    requires n <= CATEGORIES
    requires forall c :: f(CategoryRow(c, 0, 0, 0, 0)) == 0
    ensures Sum(Occurring(expenses, n), f) == Sum(Rows(expenses, n), f)
  {
    if n > 0 {
      OccurringSum(expenses, n - 1, f);
      var c := CategoryAt(n - 1);
      assert f(CategoryRow(c, 0, 0, 0, 0)) == 0;
      SumOfWithRow(Occurring(expenses, n - 1), RowOf(c, expenses), f);
      SumOfRows(expenses, n, f);
    }
  }

  /** The category rows add up to the totals, column by column. */
  lemma {:induction false} BreakdownSumsToTotals(expenses: seq<Expense>)
    ensures var breakdown := Occurring(expenses, CATEGORIES);
            && Sum(breakdown, RowClaimed) == Sum(expenses, LiveClaim)
            && Sum(breakdown, RowVerified) == Sum(expenses, ClearedAmount)
            && Sum(breakdown, RowDisallowed) == Sum(expenses, DisallowedSpend)
            && Sum(breakdown, RowCount) == |expenses|
  {
    RowsSumToTotals(expenses);
    OccurringSum(expenses, CATEGORIES, RowClaimed);
    OccurringSum(expenses, CATEGORIES, RowVerified);
    OccurringSum(expenses, CATEGORIES, RowDisallowed);
    OccurringSum(expenses, CATEGORIES, RowCount);
  }

  /** Every expense is counted under exactly one status. */
  lemma {:induction false} StatusCountsSumToTotal(expenses: seq<Expense>)
    ensures StatusCount(Draft, expenses) + StatusCount(Submitted, expenses) + StatusCount(Verified, expenses)
          + StatusCount(PartiallyVerified, expenses) + StatusCount(Queried, expenses)
          + StatusCount(Disallowed, expenses) == |expenses|
  {
    if expenses != [] {
      StatusCountsSumToTotal(expenses[..|expenses| - 1]);
    }
  }

  // ---------- the summary agrees with the settlement ----------

  /** Two accountings of one sound ledger: the same verified and disallowed totals, and a claimed
      total that is smaller by exactly the disallowed claims. */
  lemma {:induction false} AgreesWithSettlement(expenses: seq<Expense>)
    requires ExpensesSound(expenses)
    ensures Sum(expenses, ClearedAmount) == Sum(expenses, VerifiedPart)
    ensures Sum(expenses, DisallowedSpend) == Sum(expenses, DisallowedPart)
    ensures Sum(expenses, LiveClaim) == Sum(expenses, ClaimedPart) - Sum(expenses, DisallowedClaim)
  {
    if expenses != [] {
      var n := |expenses| - 1;
      assert expenses[n].Sound();
      AgreesWithSettlement(expenses[..n]);
    }
  }

  /** A status is counted as often as it occurs. */
  lemma {:induction false} StatusCountMeans(s: ExpenseStatus, expenses: seq<Expense>)
    ensures StatusCount(s, expenses) == multiset(Mapped(expenses, (e: Expense) => e.status))[s]
  {
    if expenses != [] {
      var n := |expenses| - 1;
      var all, front := Mapped(expenses, (e: Expense) => e.status), Mapped(expenses[..n], (e: Expense) => e.status);
      StatusCountMeans(s, expenses[..n]);
      assert all == front + [expenses[n].status];
    }
  }

  /** The row adds up these expenses, column by column. */
  ghost predicate AddsUp(row: CategoryRow, own: seq<Expense>) {
    && row.claimed == Sum(own, LiveClaim) && row.verified == Sum(own, ClearedAmount)
    && row.disallowed == Sum(own, DisallowedSpend) && row.count == |own|
  }

  lemma {:induction false} PlusAddsUp(row: CategoryRow, own: seq<Expense>, e: Expense)
    requires AddsUp(row, own)
    ensures AddsUp(Plus(row, e), own + [e])
  {
    SumOfAppend(own, e, LiveClaim);
    SumOfAppend(own, e, ClearedAmount);
    SumOfAppend(own, e, DisallowedSpend);
  }

  /** A category's row sums over the expenses of that category alone. */
  lemma {:induction false} RowMeans(c: Category, expenses: seq<Expense>)
    ensures AddsUp(RowOf(c, expenses), OfCategory(c, expenses))
  {
    if expenses != [] {
      var n := |expenses| - 1;
      RowMeans(c, expenses[..n]);
      if expenses[n].category == c {
        PlusAddsUp(RowOf(c, expenses[..n]), OfCategory(c, expenses[..n]), expenses[n]);
      } else {
        assert OfCategory(c, expenses) == OfCategory(c, expenses[..n]);
      }
    }
  }

  function OfCategory(c: Category, expenses: seq<Expense>): (own: seq<Expense>)
    ensures forall e :: e in own <==> e in expenses && e.category == c
  {
    if expenses == [] then []
    else
      var n := |expenses| - 1;
      assert expenses == expenses[..n] + [expenses[n]];
      OfCategory(c, expenses[..n]) + (if expenses[n].category == c then [expenses[n]] else [])
  }
}
