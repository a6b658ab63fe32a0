/** The source fingerprint of a settlement: a canonical form of every row the settlement
    was computed from. SHA-256 and the JSON encoding are taken as injective, so the canonical
    form itself stands for the hash. */
module Fingerprint {
  import opened Common
  import opened Ledger

  datatype ExpenseEntry = ExpenseEntry(id: nat, status: ExpenseStatus, claimed: int, verified: Option<int>)

  datatype IncomeEntry = IncomeEntry(id: nat, status: IncomeStatus, amount: int)

  datatype AdvanceEntry = AdvanceEntry(status: AdvanceStatus, approved: Option<int>, disbursed: int)

  datatype Canonical = Canonical(
    version: nat,
    grant: int,
    expenses: seq<ExpenseEntry>,
    incomes: seq<IncomeEntry>,
    advance: Option<AdvanceEntry>
  )

  function ExpenseEntryOf(e: Expense): ExpenseEntry {
    ExpenseEntry(e.id, e.status, e.claimed, e.verified)
  }

  function IncomeEntryOf(i: Income): IncomeEntry {
    IncomeEntry(i.id, i.status, i.amount)
  }

  function AdvanceEntryOf(a: Option<Advance>): Option<AdvanceEntry> {
    if a.None? then None else Some(AdvanceEntry(a.value.status, a.value.approved, a.value.disbursed))
  }

  /** The fingerprint of a set of rows, fetched in any order. */
  function Compute(version: nat, grant: int, expenses: seq<Expense>, incomes: seq<Income>,
                   advance: Option<Advance>): Canonical
  {
    Canonical(version, grant,
              Mapped(Sorted(expenses, ExpenseId), ExpenseEntryOf),
              Mapped(Sorted(incomes, IncomeId), IncomeEntryOf),
              AdvanceEntryOf(advance))
  }

  // ---------- sorting by primary key ----------

  ghost predicate Ordered<T>(rows: seq<T>, id: T -> nat) {
    forall i, j :: 0 <= i < j < |rows| ==> id(rows[i]) <= id(rows[j])
  }

  function Insert<T>(row: T, rows: seq<T>, id: T -> nat): (r: seq<T>)
    ensures forall i :: 0 <= i < |r| ==> r[i] == row || r[i] in rows
  {
    if rows == [] then [row]
    else
      var n := |rows| - 1;
      if id(rows[n]) <= id(row) then rows + [row] else Insert(row, rows[..n], id) + [rows[n]]
  }

  lemma {:induction false} InsertKeepsOrder<T>(row: T, rows: seq<T>, id: T -> nat)
    requires Ordered(rows, id)
    ensures Ordered(Insert(row, rows, id), id)
  {
    if rows != [] && id(row) < id(rows[|rows| - 1]) {
      InsertKeepsOrder(row, rows[..|rows| - 1], id);
    }
  }

  lemma {:induction false} InsertAddsOneRow<T>(row: T, rows: seq<T>, id: T -> nat)
    ensures multiset(Insert(row, rows, id)) == multiset(rows) + multiset{row}
  {
    if rows != [] && id(row) < id(rows[|rows| - 1]) {
      InsertAddsOneRow(row, rows[..|rows| - 1], id);
      BagOfLast(rows);
    }
  }

  function Sorted<T>(rows: seq<T>, id: T -> nat): (r: seq<T>)
    ensures Ordered(r, id) && multiset(r) == multiset(rows)
  {
    if rows == [] then []
    else
      var n := |rows| - 1;
      var front := Sorted(rows[..n], id);
      InsertKeepsOrder(rows[n], front, id);
      InsertAddsOneRow(rows[n], front, id);
      BagOfLast(rows);
      Insert(rows[n], front, id)
  }

  /** Two ascending lists of the same rows end in the same row. */
  lemma SameLastRow<T>(a: seq<T>, b: seq<T>, id: T -> nat)
    requires Ordered(a, id) && Ordered(b, id) && multiset(a) == multiset(b)
    requires UniqueIds(a, id) && a != [] && |a| == |b|
    ensures a[|a| - 1] == b[|b| - 1]
  {
    var n := |a| - 1;
    var k := LastRowElsewhere(a, b);
    var m := LastRowElsewhere(b, a);
    assert id(a[m]) <= id(a[n]);
    assert id(b[k]) <= id(b[n]);
  }

  /** Two ascending lists of the same rows, no two sharing an id, are the same list. */
  lemma {:induction false} OrderIsUnique<T>(a: seq<T>, b: seq<T>, id: T -> nat)
    requires Ordered(a, id) && Ordered(b, id) && multiset(a) == multiset(b)
    requires UniqueIds(a, id)
    ensures a == b
    decreases |a|
  {
    SameSize(a, b);
    if a != [] {
      var n := |a| - 1;
      SameLastRow(a, b, id);
      BagWithoutLast(a);
      BagWithoutLast(b);
      OrderIsUnique(a[..n], b[..n], id);
      assert a == a[..n] + [a[n]] && b == b[..n] + [b[n]];
    }
  }

  lemma BagWithoutLast<T>(rows: seq<T>)
    requires rows != []
    ensures multiset(rows[..|rows| - 1]) == multiset(rows) - multiset{rows[|rows| - 1]}
  {
    BagOfLast(rows);
  }

  lemma SameSize<T>(a: seq<T>, b: seq<T>)
    requires multiset(a) == multiset(b)
    ensures |a| == |b|
  {
    assert |multiset(a)| == |a| && |multiset(b)| == |b|;
  }

  /** A reordering of a table has the same primary keys. */
  lemma {:induction false} ReorderingKeepsIdsUnique<T>(a: seq<T>, b: seq<T>, id: T -> nat)
    requires UniqueIds(a, id) && multiset(a) == multiset(b)
    ensures UniqueIds(b, id)
    decreases |b|
  {
    if b != [] {
      var n := |b| - 1;
      var k := LastRowElsewhere(b, a);
      var rest := RemoveAt(a, k);
      ReorderingKeepsIdsUnique(rest, b[..n], id);
      forall j | 0 <= j < n
        ensures id(b[j]) != id(b[n])
      {
        assert b[..n][j] in multiset(b[..n]);
        assert b[j] in rest;
      }
    }
  }

  /** Projecting rows commutes with forgetting their order. */
  lemma {:induction false} MappedIgnoresOrder<T, U>(a: seq<T>, b: seq<T>, g: T -> U)
    requires multiset(a) == multiset(b)
    ensures multiset(Mapped(a, g)) == multiset(Mapped(b, g))
    decreases |a|
  {
    SameSize(a, b);
    if a == [] {
      assert Mapped(a, g) == Mapped(b, g);
    } else {
      var n := |a| - 1;
      var k := LastRowElsewhere(a, b);
      MappedIgnoresOrder(a[..n], RemoveAt(b, k), g);
      assert Mapped(a, g)[..n] == Mapped(a[..n], g);
      assert RemoveAt(Mapped(b, g), k) == Mapped(RemoveAt(b, k), g);
      BagOfLast(Mapped(a, g));
      BagOfRemoveAt(Mapped(b, g), k);
    }
  }

  // ---------- the canonical form ----------

  lemma SortedIgnoresOrder<T>(a: seq<T>, b: seq<T>, id: T -> nat)
    requires UniqueIds(a, id) && multiset(a) == multiset(b)
    ensures Sorted(a, id) == Sorted(b, id)
  {
    ReorderingKeepsIdsUnique(a, Sorted(a, id), id);
    OrderIsUnique(Sorted(a, id), Sorted(b, id), id);
  }

  /** Fetch order never changes a fingerprint. */
  lemma FetchOrderIsIrrelevant(version: nat, grant: int, expenses: seq<Expense>, expenses': seq<Expense>,
                               incomes: seq<Income>, incomes': seq<Income>, advance: Option<Advance>)
    requires UniqueIds(expenses, ExpenseId) && multiset(expenses) == multiset(expenses')
    requires UniqueIds(incomes, IncomeId) && multiset(incomes) == multiset(incomes')
    ensures Compute(version, grant, expenses, incomes, advance)
         == Compute(version, grant, expenses', incomes', advance)
  {
    SortedIgnoresOrder(expenses, expenses', ExpenseId);
    SortedIgnoresOrder(incomes, incomes', IncomeId);
  }

  /** The fingerprint is injective on what it covers: two sets of sources have the same
      fingerprint exactly when version, grant and advance agree and the two ledgers hold the
      same entries, however they are ordered. */
  lemma SameFingerprintSameSources(v: nat, g: int, es: seq<Expense>, ins: seq<Income>, a: Option<Advance>,
                                   v': nat, g': int, es': seq<Expense>, ins': seq<Income>, a': Option<Advance>)
    requires UniqueIds(es, ExpenseId) && UniqueIds(es', ExpenseId)
    requires UniqueIds(ins, IncomeId) && UniqueIds(ins', IncomeId)
    ensures Compute(v, g, es, ins, a) == Compute(v', g', es', ins', a')
       <==> && v == v' && g == g' && AdvanceEntryOf(a) == AdvanceEntryOf(a')
            && multiset(Mapped(es, ExpenseEntryOf)) == multiset(Mapped(es', ExpenseEntryOf))
            && multiset(Mapped(ins, IncomeEntryOf)) == multiset(Mapped(ins', IncomeEntryOf))
  {
    CanonicalLists(es, es', ExpenseId, ExpenseEntryOf, (e: ExpenseEntry) => e.id);
    CanonicalLists(ins, ins', IncomeId, IncomeEntryOf, (i: IncomeEntry) => i.id);
  }

  /** Projecting keeps the order and the uniqueness of ids. */
  lemma MappedKeepsIds<T, U>(rows: seq<T>, id: T -> nat, g: T -> U, entryId: U -> nat)
    requires Ordered(rows, id) && UniqueIds(rows, id)
    requires forall i :: 0 <= i < |rows| ==> entryId(g(rows[i])) == id(rows[i])
    ensures Ordered(Mapped(rows, g), entryId) && UniqueIds(Mapped(rows, g), entryId)
  {
  }

  lemma SortedEntries<T, U>(rows: seq<T>, id: T -> nat, g: T -> U, entryId: U -> nat)
    requires UniqueIds(rows, id)
    requires forall t :: t in rows ==> entryId(g(t)) == id(t)
    ensures var entries := Mapped(Sorted(rows, id), g);
            && Ordered(entries, entryId) && UniqueIds(entries, entryId)
            && multiset(entries) == multiset(Mapped(rows, g))
  {
    var sorted := Sorted(rows, id);
    forall i | 0 <= i < |sorted|
      ensures entryId(g(sorted[i])) == id(sorted[i])
    {
      assert sorted[i] in multiset(sorted);
      assert sorted[i] in rows;
    }
    ReorderingKeepsIdsUnique(rows, sorted, id);
    MappedKeepsIds(sorted, id, g, entryId);
    MappedIgnoresOrder(rows, sorted, g);
  }

  lemma CanonicalLists<T, U>(a: seq<T>, b: seq<T>, id: T -> nat, g: T -> U, entryId: U -> nat)
    requires UniqueIds(a, id) && UniqueIds(b, id)
    requires forall t :: t in a || t in b ==> entryId(g(t)) == id(t)
    ensures Mapped(Sorted(a, id), g) == Mapped(Sorted(b, id), g)
       <==> multiset(Mapped(a, g)) == multiset(Mapped(b, g))
  {
    SortedEntries(a, id, g, entryId);
    SortedEntries(b, id, g, entryId);
    if multiset(Mapped(a, g)) == multiset(Mapped(b, g)) {
      OrderIsUnique(Mapped(Sorted(a, id), g), Mapped(Sorted(b, id), g), entryId);
    }
  }

  // ---------- the totals hidden in a fingerprint ----------

  function EntryVerified(e: ExpenseEntry): int {
    if e.status.Verified? || e.status.PartiallyVerified?
    then (if e.verified.Some? then e.verified.value else e.claimed)
    else 0
  }

  function EntryIncome(i: IncomeEntry): int { if i.status.IncomeVerified? then i.amount else 0 }

  function EntryDisbursed(a: Option<AdvanceEntry>): int {
    if a.Some? && a.value.status.Disbursed? then a.value.disbursed else 0
  }

  /** A fingerprint determines the verified expenditure, verified income and disbursed advance
      of the sources it was taken from. */
  lemma FingerprintFixesTotals(version: nat, grant: int, expenses: seq<Expense>, incomes: seq<Income>,
                               advance: Option<Advance>)
    ensures var c := Compute(version, grant, expenses, incomes, advance);
            && Sum(expenses, VerifiedPart) == Sum(c.expenses, EntryVerified)
            && Sum(incomes, IncomePart) == Sum(c.incomes, EntryIncome)
            && DisbursedPart(advance) == EntryDisbursed(c.advance)
  {
    var es, ins := Sorted(expenses, ExpenseId), Sorted(incomes, IncomeId);
    SumIgnoresOrder(expenses, es, VerifiedPart);
    SumOfMapped(es, ExpenseEntryOf, VerifiedPart, EntryVerified);
    SumIgnoresOrder(incomes, ins, IncomePart);
    SumOfMapped(ins, IncomeEntryOf, IncomePart, EntryIncome);
  }

  /** The institutional payout for given totals. */
  function Payout(grant: int, verified: int, income: int): int { Min(grant, Max(0, verified - income)) }

  /** Equal fingerprints force equal verified totals, equal advance and equal payout. */
  lemma SameFingerprintSamePayout(v: nat, g: int, es: seq<Expense>, ins: seq<Income>, a: Option<Advance>,
                                  v': nat, g': int, es': seq<Expense>, ins': seq<Income>, a': Option<Advance>)
    requires Compute(v, g, es, ins, a) == Compute(v', g', es', ins', a')
    ensures Sum(es, VerifiedPart) == Sum(es', VerifiedPart)
    ensures Sum(ins, IncomePart) == Sum(ins', IncomePart)
    ensures DisbursedPart(a) == DisbursedPart(a')
    ensures Payout(g, Sum(es, VerifiedPart), Sum(ins, IncomePart))
         == Payout(g', Sum(es', VerifiedPart), Sum(ins', IncomePart))
  {
    FingerprintFixesTotals(v, g, es, ins, a);
    FingerprintFixesTotals(v', g', es', ins', a');
  }

  /** The aggregates alone do not determine the sources: replacing a verified claim by another of
      the same amount keeps every total and changes the fingerprint. */
  lemma AggregatesMissReplacement()
    ensures var e := Expense(5, Venue, "v", None, 0, 8, 100, Some(100), Verified, 1, true);
            var e' := e.(id := 6, bill := 9);
            && Sum([e], VerifiedPart) == Sum([e'], VerifiedPart) == 100
            && Compute(1, 100, [e], [], None) != Compute(1, 100, [e'], [], None)
  {
    var e := Expense(5, Venue, "v", None, 0, 8, 100, Some(100), Verified, 1, true);
    var e' := e.(id := 6, bill := 9);
    assert Sorted([e], ExpenseId)[0] in multiset([e]);
    assert Sorted([e'], ExpenseId)[0] in multiset([e']);
    assert Compute(1, 100, [e], [], None).expenses[0].id == 5;
    assert Compute(1, 100, [e'], [], None).expenses[0].id == 6;
  }

  /** What an entry shows of its row, and so what the fingerprint is sensitive to. */
  lemma EntriesShow(e: Expense, e': Expense, i: Income, i': Income, a: Advance, a': Advance)
    ensures ExpenseEntryOf(e) == ExpenseEntryOf(e')
       <==> e.id == e'.id && e.status == e'.status && e.claimed == e'.claimed && e.verified == e'.verified
    ensures IncomeEntryOf(i) == IncomeEntryOf(i') <==> i.id == i'.id && i.status == i'.status && i.amount == i'.amount
    ensures AdvanceEntryOf(Some(a)) == AdvanceEntryOf(Some(a'))
       <==> a.status == a'.status && a.approved == a'.approved && a.disbursed == a'.disbursed
    ensures AdvanceEntryOf(Some(a)) != AdvanceEntryOf(None)
  {
  }
}
