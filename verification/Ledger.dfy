/** The ledgers of one confirmed event: actual expenses, actual incomes and the cash advance.
    Amounts are whole paise. */
module Ledger {
  import opened Common

  datatype ExpenseStatus = Draft | Submitted | Verified | PartiallyVerified | Queried | Disallowed

  datatype Category =
    | Catering
    | Decoration
    | Honorarium
    | Materials
    | Other
    | Printing
    | Technology
    | Transport
    | Venue

  /** `vendor` and `invoice` are the trimmed, lower-cased texts; a blank invoice number is None. */
  datatype Expense = Expense(
    id: nat,
    category: Category,
    vendor: string,
    invoice: Option<string>,
    invoiceDate: int,
    bill: nat,
    claimed: int,
    verified: Option<int>,
    status: ExpenseStatus,
    submittedBy: nat,
    flagged: bool
  ) {
    predicate Unresolved() { status.Draft? || status.Submitted? || status.Queried? }

    predicate Cleared() { status.Verified? || status.PartiallyVerified? }

    predicate Terminal() { Cleared() || status.Disallowed? }

    /** The derived disallowed amount of the expense table. */
    function DisallowedAmount(): int {
      if Terminal() then Max(0, claimed - (if verified.Some? then verified.value else 0)) else 0
    }

    /** What the status says about the amounts: nothing verified while unresolved, all of the
        claim when verified, a proper part when partially verified, nothing when disallowed. */
    predicate Sound() {
      && 0 < claimed
      && match status
         case Verified => verified == Some(claimed)
         case PartiallyVerified => verified.Some? && 0 < verified.value < claimed
         case Disallowed => verified == Some(0)
         case _ => verified == None
    }
  }

  datatype IncomeStatus = Recorded | IncomeVerified | IncomeRejected

  datatype Income = Income(id: nat, amount: int, status: IncomeStatus, recordedBy: nat, verifiedBy: Option<nat>) {
    /** Income is never judged by the person who recorded it. */
    predicate Sound() {
      && 0 < amount
      && (status.Recorded? <==> verifiedBy.None?)
      && verifiedBy != Some(recordedBy)
    }
  }

  datatype AdvanceStatus = Requested | Approved | Disbursed | Rejected

  datatype Advance = Advance(
    requested: int,
    approved: Option<int>,
    disbursed: int,
    status: AdvanceStatus,
    recipient: nat
  ) {
    predicate Pending() { status.Requested? || status.Approved? }

    /** The whole approved amount is paid out or nothing is, and never more than the grant. */
    predicate Sound(grant: int) {
      && 0 < requested
      && (approved.Some? ==> 0 < approved.value <= grant)
      && match status
         case Requested => approved.None? && disbursed == 0
         case Approved => approved.Some? && disbursed == 0
         case Disbursed => approved == Some(disbursed)
         case Rejected => disbursed == 0
    }
  }

  function ExpenseId(e: Expense): nat { e.id }

  function IncomeId(i: Income): nat { i.id }

  predicate UniqueIds<T>(rows: seq<T>, id: T -> nat) {
    forall i, j :: 0 <= i < j < |rows| ==> id(rows[i]) != id(rows[j])
  }

  /** The position of a row, as a lookup by primary key. */
  function Find<T>(rows: seq<T>, id: T -> nat, key: nat): (r: Option<nat>)
    ensures r.Some? ==> r.value < |rows| && id(rows[r.value]) == key
    ensures r.None? ==> forall i :: 0 <= i < |rows| ==> id(rows[i]) != key
  {
    if rows == [] then None
    else
      var n := |rows| - 1;
      if id(rows[n]) == key then Some(n) else Find(rows[..n], id, key)
  }

  // ---------- what each row contributes to a settlement ----------

  function ClaimedPart(e: Expense): int { e.claimed }

  function VerifiedPart(e: Expense): int {
    if e.Cleared() then (if e.verified.Some? then e.verified.value else e.claimed) else 0
  }

  function DisallowedPart(e: Expense): int {
    if e.Cleared() then Max(0, e.claimed - VerifiedPart(e))
    else if e.status.Disallowed? then e.claimed
    else 0
  }

  function IncomePart(i: Income): int { if i.status.IncomeVerified? then i.amount else 0 }

  function DisbursedPart(a: Option<Advance>): int {
    if a.Some? && a.value.status.Disbursed? then a.value.disbursed else 0
  }

  predicate AnyUnresolved(expenses: seq<Expense>) { exists e :: e in expenses && e.Unresolved() }

  predicate AnyRecorded(incomes: seq<Income>) { exists i :: i in incomes && i.status.Recorded? }

  predicate AdvancePending(a: Option<Advance>) { a.Some? && a.value.Pending() }

  ghost predicate ExpensesSound(expenses: seq<Expense>) {
    UniqueIds(expenses, ExpenseId) && forall e :: e in expenses ==> e.Sound()
  }

  ghost predicate IncomesSound(incomes: seq<Income>) {
    UniqueIds(incomes, IncomeId) && forall i :: i in incomes ==> i.Sound()
  }

  // ---------- conservation ----------

  /** Once every claim is terminal, each claimed paisa is either verified or disallowed. */
  lemma {:induction false} ClaimsAreConserved(expenses: seq<Expense>)
    requires ExpensesSound(expenses) && !AnyUnresolved(expenses)
    ensures Sum(expenses, ClaimedPart) == Sum(expenses, VerifiedPart) + Sum(expenses, DisallowedPart)
  {
    forall e | e in expenses
      ensures ClaimedPart(e) == VerifiedPart(e) + DisallowedPart(e)
    {
      assert e.Sound() && !e.Unresolved();
    }
    SumOfSum(expenses, VerifiedPart, DisallowedPart, ClaimedPart);
  }

  /** In any ledger, resolved or not, the claims not yet accounted for are the unresolved ones. */
  function UnresolvedPart(e: Expense): int { if e.Unresolved() then e.claimed else 0 }

  function SettledPart(e: Expense): int { VerifiedPart(e) + DisallowedPart(e) }

  lemma {:induction false} ClaimsAreAccountedFor(expenses: seq<Expense>)
    requires ExpensesSound(expenses)
    ensures Sum(expenses, ClaimedPart)
         == Sum(expenses, VerifiedPart) + Sum(expenses, DisallowedPart) + Sum(expenses, UnresolvedPart)
  {
    forall e | e in expenses
      ensures ClaimedPart(e) == SettledPart(e) + UnresolvedPart(e)
    {
      assert e.Sound();
    }
    SumOfSum(expenses, VerifiedPart, DisallowedPart, SettledPart);
    SumOfSum(expenses, SettledPart, UnresolvedPart, ClaimedPart);
  }
}
