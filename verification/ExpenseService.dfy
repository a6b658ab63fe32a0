/** The expense service over the mutable rows of an event. */
module ExpenseService {
  import opened Common
  import opened Ledger
  import opened EventFiles
  import opened EventStore
  import R = ExpenseRules

  /** Scans the live claims of all events for the same invoice. */
  method CheckDuplicateInvoice(own: seq<Expense>, elsewhere: seq<Expense>, exclude: Option<nat>,
                               vendor: string, invoice: Option<string>, date: int, bill: nat)
    returns (duplicated: bool)
    ensures duplicated == R.Duplicated(own, elsewhere, exclude, vendor, invoice, date, bill)
  {
    if invoice.None? { return false; }
    for k := 0 to |elsewhere|
      invariant forall e :: e in elsewhere[..k] ==> !R.SameInvoice(e, vendor, invoice, date)
    {
      if R.SameInvoice(elsewhere[k], vendor, invoice, date) { return true; }
    }
    for k := 0 to |own|
      invariant forall e :: e in own[..k] ==>
        !(R.SameInvoice(e, vendor, invoice, date) && exclude != Some(e.id) && e.bill != bill)
    {
      var m := own[k];
      if exclude != Some(m.id) && R.SameInvoice(m, vendor, invoice, date) && m.bill != bill { return true; }
    }
    assert elsewhere[..|elsewhere|] == elsewhere && own[..|own|] == own;
    return false;
  }

  method CreateDraftExpense(db: Store, actor: Actor, id: nat, claim: R.Claim, elsewhere: seq<Expense>)
    returns (r: Reply)
    modifies db
    ensures db.advance == old(db.advance) && db.settlement == old(db.settlement)
    ensures r == R.CreateExpense(old(db.File()), actor, id, claim, elsewhere).Reply()
    ensures db.File() == After(old(db.File()), R.CreateExpense(old(db.File()), actor, id, claim, elsewhere))
  {
    if claim.claimed <= 0 { return Failed(Unprocessable); }
    if db.status.Sealed() { return Failed(Conflict); }
    if !db.status.Completed? { return Failed(WorkflowState); }
    if !actor.secretary { return Failed(Forbidden); }
    if claim.document.None? { return Failed(NotFound); }
    if !claim.document.value.owned { return Failed(BadRequest); }
    var bill := claim.document.value.id;
    var duplicated := CheckDuplicateInvoice(db.expenses, elsewhere, None, claim.vendor, claim.invoice,
                                            claim.invoiceDate, bill);
    if duplicated { return Failed(Conflict); }
    if Find(db.expenses, ExpenseId, id).Some? { return Failed(IntegrityViolation); }
    var expense := Expense(id, claim.category, claim.vendor, claim.invoice, claim.invoiceDate, bill, claim.claimed,
                           None, Draft, actor.id, claim.invoice.None?);
    db.expenses := db.expenses + [expense];
    return Done;
  }

  method UpdateExpense(db: Store, actor: Actor, id: nat, p: R.ExpensePatch, elsewhere: seq<Expense>)
    returns (r: Reply)
    modifies db
    ensures db.advance == old(db.advance) && db.settlement == old(db.settlement)
    ensures r == R.UpdateExpense(old(db.File()), actor, id, p, elsewhere).Reply()
    ensures db.File() == After(old(db.File()), R.UpdateExpense(old(db.File()), actor, id, p, elsewhere))
  {
    if p.claimed.Some? && p.claimed.value <= 0 { return Failed(Unprocessable); }
    if db.status.Sealed() { return Failed(Conflict); }
    if !actor.secretary { return Failed(Forbidden); }
    var at := Find(db.expenses, ExpenseId, id);
    if at.None? { return Failed(NotFound); }
    var expense := db.expenses[at.value];
    if expense.Terminal() { return Failed(WorkflowState); }
    if expense.status.Submitted? { return Failed(WorkflowState); }
    if p.bill.Some? && p.bill.value != expense.bill {
      if p.document.None? { return Failed(NotFound); }
      if !p.document.value.owned { return Failed(BadRequest); }
    }
    var amended := AmendedRow(expense, p);
    var duplicated := CheckDuplicateInvoice(db.expenses, elsewhere, Some(id), amended.vendor, amended.invoice,
                                            amended.invoiceDate, amended.bill);
    if duplicated { return Failed(Conflict); }
    db.expenses := db.expenses[at.value := amended];
    return Done;
  }

  /** The claim with every given field replaced. */
  method AmendedRow(expense: Expense, p: R.ExpensePatch) returns (row: Expense)
    ensures row == R.Amended(expense, p)
  {
    row := expense;
    if p.bill.Some? { row := row.(bill := p.bill.value); }
    if p.category.Some? { row := row.(category := p.category.value); }
    if p.vendor.Some? { row := row.(vendor := p.vendor.value); }
    if p.invoice.Some? { row := row.(invoice := p.invoice.value); }
    if p.invoiceDate.Some? { row := row.(invoiceDate := p.invoiceDate.value); }
    if p.claimed.Some? { row := row.(claimed := p.claimed.value); }
    row := row.(flagged := row.invoice.None?);
  }

  method DeleteDraftExpense(db: Store, actor: Actor, id: nat) returns (r: Reply)
    modifies db
    ensures db.advance == old(db.advance) && db.settlement == old(db.settlement)
    ensures r == R.DeleteExpense(old(db.File()), actor, id).Reply()
    ensures db.File() == After(old(db.File()), R.DeleteExpense(old(db.File()), actor, id))
  {
    if db.status.Sealed() { return Failed(Conflict); }
    if !actor.secretary { return Failed(Forbidden); }
    var at := Find(db.expenses, ExpenseId, id);
    if at.None? { return Failed(NotFound); }
    var expense := db.expenses[at.value];
    if expense.Terminal() || expense.status.Submitted? { return Failed(WorkflowState); }
    db.expenses := RemoveAt(db.expenses, at.value);
    return Done;
  }

  method SubmitExpenses(db: Store, actor: Actor, ids: seq<nat>) returns (r: Reply)
    modifies db
    ensures db.advance == old(db.advance) && db.settlement == old(db.settlement)
    ensures r == R.SubmitExpenses(old(db.File()), actor, ids).Reply()
    ensures db.File() == After(old(db.File()), R.SubmitExpenses(old(db.File()), actor, ids))
  {
    if db.status.Sealed() { return Failed(Conflict); }
    if !db.status.Completed? { return Failed(WorkflowState); }
    if !actor.secretary { return Failed(Forbidden); }
    var rows, selected := [], 0;
    for k := 0 to |db.expenses|
      invariant |rows| == k
      invariant forall j :: 0 <= j < k ==> rows[j] == R.SubmittedRow(db.expenses[j], ids, actor.id)
      invariant selected > 0 <==> exists e :: e in db.expenses[..k] && R.Selected(e, ids)
    {
      var expense := db.expenses[k];
      assert db.expenses[..k + 1] == db.expenses[..k] + [expense];
      if R.Selected(expense, ids) {
        selected := selected + 1;
        expense := expense.(status := Submitted, submittedBy := actor.id);
      }
      rows := rows + [expense];
    }
    assert db.expenses[..|db.expenses|] == db.expenses;
    if selected == 0 { return Failed(BadRequest); }
    db.expenses := rows;
    return Done;
  }

  // ---------- finance ----------

  /** The checks shared by the four audit actions: who asks, and for which submitted claim. */
  method FetchSubmitted(db: Store, actor: Actor, id: nat) returns (r: Outcome<nat>)
    ensures r == R.SubmittedClaim(db.File(), actor, id)
  {
    if !actor.role.FinanceOfficer? { return Refused(Forbidden); }
    if db.status.Sealed() { return Refused(Conflict); }
    if db.report.None? || !db.report.value.status.Certified? { return Refused(WorkflowState); }
    var at := Find(db.expenses, ExpenseId, id);
    if at.None? { return Refused(NotFound); }
    if !db.expenses[at.value].status.Submitted? { return Refused(WorkflowState); }
    return Accepted(at.value);
  }

  method VerifyExpense(db: Store, actor: Actor, id: nat) returns (r: Reply)
    modifies db
    ensures db.advance == old(db.advance) && db.settlement == old(db.settlement)
    ensures r == R.RuleOnExpense(old(db.File()), actor, id, R.VerifyInFull).Reply()
    ensures db.File() == After(old(db.File()), R.RuleOnExpense(old(db.File()), actor, id, R.VerifyInFull))
  {
    var at := FetchSubmitted(db, actor, id);
    if at.Refused? { return Failed(at.error); }
    var expense := db.expenses[at.state];
    db.expenses := db.expenses[at.state := expense.(verified := Some(expense.claimed), status := Verified)];
    return Done;
  }

  method PartialVerifyExpense(db: Store, actor: Actor, id: nat, amount: int) returns (r: Reply)
    modifies db
    ensures db.advance == old(db.advance) && db.settlement == old(db.settlement)
    ensures r == R.RuleOnExpense(old(db.File()), actor, id, R.VerifyPart(amount)).Reply()
    ensures db.File() == After(old(db.File()), R.RuleOnExpense(old(db.File()), actor, id, R.VerifyPart(amount)))
  {
    var at := FetchSubmitted(db, actor, id);
    if at.Refused? { return Failed(at.error); }
    var expense := db.expenses[at.state];
    if amount >= expense.claimed { return Failed(BadRequest); }
    if amount <= 0 { return Failed(BadRequest); }
    db.expenses := db.expenses[at.state := expense.(verified := Some(amount), status := PartiallyVerified)];
    return Done;
  }

  method QueryExpense(db: Store, actor: Actor, id: nat) returns (r: Reply)
    modifies db
    ensures db.advance == old(db.advance) && db.settlement == old(db.settlement)
    ensures r == R.RuleOnExpense(old(db.File()), actor, id, R.QueryClaim).Reply()
    ensures db.File() == After(old(db.File()), R.RuleOnExpense(old(db.File()), actor, id, R.QueryClaim))
  {
    var at := FetchSubmitted(db, actor, id);
    if at.Refused? { return Failed(at.error); }
    db.expenses := db.expenses[at.state := db.expenses[at.state].(status := Queried)];
    return Done;
  }

  method DisallowExpense(db: Store, actor: Actor, id: nat) returns (r: Reply)
    modifies db
    ensures db.advance == old(db.advance) && db.settlement == old(db.settlement)
    ensures r == R.RuleOnExpense(old(db.File()), actor, id, R.DisallowClaim).Reply()
    ensures db.File() == After(old(db.File()), R.RuleOnExpense(old(db.File()), actor, id, R.DisallowClaim))
  {
    var at := FetchSubmitted(db, actor, id);
    if at.Refused? { return Failed(at.error); }
    var expense := db.expenses[at.state];
    db.expenses := db.expenses[at.state := expense.(verified := Some(0), status := Disallowed)];
    return Done;
  }
}
