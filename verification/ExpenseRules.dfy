/** What each operation of the expense service does to the record of an event. */
module ExpenseRules {
  import opened Common
  import opened Ledger
  import opened EventFiles

  /** The amendable fields of a claim; None leaves a field as it is, and an invoice number
      given as Some(None) is blank. `bill` is the requested document with its lookup. */
  datatype ExpensePatch = ExpensePatch(
    category: Option<Category>,
    vendor: Option<string>,
    invoice: Option<Option<string>>,
    invoiceDate: Option<int>,
    claimed: Option<int>,
    bill: Option<nat>,
    document: Option<Document>
  )

  datatype Claim = Claim(
    category: Category,
    vendor: string,
    invoice: Option<string>,
    invoiceDate: int,
    claimed: int,
    document: Option<Document>
  )

  // ---------- duplicate invoices ----------

  /** A live claim for the same vendor, invoice number and date. */
  predicate SameInvoice(e: Expense, vendor: string, invoice: Option<string>, date: int) {
    && !e.status.Disallowed?
    && invoice.Some? && e.invoice == invoice && e.vendor == vendor && e.invoiceDate == date
  }

  /** The hard block: the invoice is live in another event, or in this event on another bill.
      Itemised splits of one bill within one event are allowed. */
  predicate Duplicated(own: seq<Expense>, elsewhere: seq<Expense>, exclude: Option<nat>,
                       vendor: string, invoice: Option<string>, date: int, bill: nat)
  {
    || (exists e :: e in elsewhere && SameInvoice(e, vendor, invoice, date))
    || (exists e :: e in own && SameInvoice(e, vendor, invoice, date) && exclude != Some(e.id) && e.bill != bill)
  }

  // ---------- secretary actions ----------

  function CreateExpense(f: EventFile, actor: Actor, id: nat, claim: Claim, elsewhere: seq<Expense>)
    : Outcome<EventFile>
  {
    if claim.claimed <= 0 then Refused(Unprocessable)
    else if f.status.Sealed() then Refused(Conflict)
    else if !f.status.Completed? then Refused(WorkflowState)
    else if !actor.secretary then Refused(Forbidden)
    else if claim.document.None? then Refused(NotFound)
    else if !claim.document.value.owned then Refused(BadRequest)
    else
      var bill := claim.document.value.id;
      if Duplicated(f.expenses, elsewhere, None, claim.vendor, claim.invoice, claim.invoiceDate, bill)
      then Refused(Conflict)
      else if Find(f.expenses, ExpenseId, id).Some? then Refused(IntegrityViolation)
      else Accepted(f.(expenses := f.expenses + [
        Expense(id, claim.category, claim.vendor, claim.invoice, claim.invoiceDate, bill, claim.claimed,
                None, Draft, actor.id, claim.invoice.None?)]))
  }

  function Or<T>(given: Option<T>, current: T): T { if given.Some? then given.value else current }

  function Amended(e: Expense, p: ExpensePatch): Expense {
    var invoice := Or(p.invoice, e.invoice);
    e.(category := Or(p.category, e.category),
       vendor := Or(p.vendor, e.vendor),
       invoice := invoice,
       invoiceDate := Or(p.invoiceDate, e.invoiceDate),
       claimed := Or(p.claimed, e.claimed),
       bill := Or(p.bill, e.bill),
       flagged := invoice.None?)
  }

  function UpdateExpense(f: EventFile, actor: Actor, id: nat, p: ExpensePatch, elsewhere: seq<Expense>)
    : Outcome<EventFile>
  {
    var at := Find(f.expenses, ExpenseId, id);
    if p.claimed.Some? && p.claimed.value <= 0 then Refused(Unprocessable)
    else if f.status.Sealed() then Refused(Conflict)
    else if !actor.secretary then Refused(Forbidden)
    else if at.None? then Refused(NotFound)
    else
      var e := f.expenses[at.value];
      if e.Terminal() || e.status.Submitted? then Refused(WorkflowState)
      else if p.bill.Some? && p.bill.value != e.bill && p.document.None? then Refused(NotFound)
      else if p.bill.Some? && p.bill.value != e.bill && !p.document.value.owned then Refused(BadRequest)
      else
        var e' := Amended(e, p);
        if Duplicated(f.expenses, elsewhere, Some(id), e'.vendor, e'.invoice, e'.invoiceDate, e'.bill)
        then Refused(Conflict)
        else Accepted(f.(expenses := f.expenses[at.value := e']))
  }

  function DeleteExpense(f: EventFile, actor: Actor, id: nat): Outcome<EventFile> {
    var at := Find(f.expenses, ExpenseId, id);
    if f.status.Sealed() then Refused(Conflict)
    else if !actor.secretary then Refused(Forbidden)
    else if at.None? then Refused(NotFound)
    else if f.expenses[at.value].Terminal() || f.expenses[at.value].status.Submitted? then Refused(WorkflowState)
    else Accepted(f.(expenses := RemoveAt(f.expenses, at.value)))
  }

  /** An empty list of ids means every draft or queried claim. */
  predicate Selected(e: Expense, ids: seq<nat>) {
    (e.status.Draft? || e.status.Queried?) && (ids == [] || e.id in ids)
  }

  function SubmittedRow(e: Expense, ids: seq<nat>, submitter: nat): Expense {
    if Selected(e, ids) then e.(status := Submitted, submittedBy := submitter) else e
  }

  function SubmitExpenses(f: EventFile, actor: Actor, ids: seq<nat>): Outcome<EventFile> {
    if f.status.Sealed() then Refused(Conflict)
    else if !f.status.Completed? then Refused(WorkflowState)
    else if !actor.secretary then Refused(Forbidden)
    else if !(exists e :: e in f.expenses && Selected(e, ids)) then Refused(BadRequest)
    else Accepted(f.(expenses := Mapped(f.expenses, (e: Expense) => SubmittedRow(e, ids, actor.id))))
  }

  // ---------- finance actions ----------

  datatype Ruling = VerifyInFull | VerifyPart(amount: int) | QueryClaim | DisallowClaim

  function Ruled(e: Expense, ruling: Ruling): Expense {
    match ruling
    case VerifyInFull => e.(verified := Some(e.claimed), status := Verified)
    case VerifyPart(amount) => e.(verified := Some(amount), status := PartiallyVerified)
    case QueryClaim => e.(status := Queried)
    case DisallowClaim => e.(verified := Some(0), status := Disallowed)
  }

  /** The submitted claim an officer may rule on. */
  function SubmittedClaim(f: EventFile, actor: Actor, id: nat): (o: Outcome<nat>)
    ensures o.Accepted? ==> o.state < |f.expenses| && f.expenses[o.state].id == id
  {
    var at := Find(f.expenses, ExpenseId, id);
    if !actor.role.FinanceOfficer? then Refused(Forbidden)
    else if f.status.Sealed() then Refused(Conflict)
    else if !ReportCertified(f) then Refused(WorkflowState)
    else if at.None? then Refused(NotFound)
    else if !f.expenses[at.value].status.Submitted? then Refused(WorkflowState)
    else Accepted(at.value)
  }

  function RuleOnExpense(f: EventFile, actor: Actor, id: nat, ruling: Ruling): Outcome<EventFile> {
    var at := SubmittedClaim(f, actor, id);
    if at.Refused? then Refused(at.error)
    else
      var e := f.expenses[at.state];
      if ruling.VerifyPart? && !(0 < ruling.amount < e.claimed) then Refused(BadRequest)
      else Accepted(f.(expenses := f.expenses[at.state := Ruled(e, ruling)]))
  }

  // ---------- one step ----------

  datatype ExpenseOp =
    | CreateExpenseOp(actor: Actor, id: nat, claim: Claim)
    | UpdateExpenseOp(actor: Actor, id: nat, patch: ExpensePatch)
    | DeleteExpenseOp(actor: Actor, id: nat)
    | SubmitExpensesOp(actor: Actor, ids: seq<nat>)
    | RuleOp(actor: Actor, id: nat, ruling: Ruling)

  function Apply(f: EventFile, op: ExpenseOp, elsewhere: seq<Expense>): Outcome<EventFile> {
    match op
    case CreateExpenseOp(actor, id, claim) => CreateExpense(f, actor, id, claim, elsewhere)
    case UpdateExpenseOp(actor, id, patch) => UpdateExpense(f, actor, id, patch, elsewhere)
    case DeleteExpenseOp(actor, id) => DeleteExpense(f, actor, id)
    case SubmitExpensesOp(actor, ids) => SubmitExpenses(f, actor, ids)
    case RuleOp(actor, id, ruling) => RuleOnExpense(f, actor, id, ruling)
  }

  // ---------- what each step keeps ----------

  lemma ReplacedRowIsSound(expenses: seq<Expense>, at: nat, e: Expense)
    requires ExpensesSound(expenses) && at < |expenses| && e.id == expenses[at].id && e.Sound()
    ensures ExpensesSound(expenses[at := e])
  {
  }

  lemma AppendedRowIsSound(expenses: seq<Expense>, e: Expense)
    requires ExpensesSound(expenses) && e.Sound() && Find(expenses, ExpenseId, e.id).None?
    ensures ExpensesSound(expenses + [e])
  {
  }

  lemma RemovalIsSound(expenses: seq<Expense>, at: nat)
    requires ExpensesSound(expenses) && at < |expenses|
    ensures ExpensesSound(RemoveAt(expenses, at))
  {
  }

  lemma SubmissionIsSound(expenses: seq<Expense>, ids: seq<nat>, submitter: nat)
    requires ExpensesSound(expenses)
    ensures ExpensesSound(Mapped(expenses, (e: Expense) => SubmittedRow(e, ids, submitter)))
  {
    var rows := Mapped(expenses, (e: Expense) => SubmittedRow(e, ids, submitter));
    forall e | e in rows
      ensures e.Sound()
    {
      var i :| 0 <= i < |expenses| && rows[i] == e;
      assert expenses[i] in expenses && e == SubmittedRow(expenses[i], ids, submitter);
    }
    forall i, j | 0 <= i < j < |rows|
      ensures ExpenseId(rows[i]) != ExpenseId(rows[j])
    {
      assert ExpenseId(expenses[i]) != ExpenseId(expenses[j]);
    }
  }

  lemma AmendmentKeepsLedgerSound(f: EventFile, actor: Actor, id: nat, p: ExpensePatch, elsewhere: seq<Expense>)
    requires ExpensesSound(f.expenses) && UpdateExpense(f, actor, id, p, elsewhere).Accepted?
    ensures ExpensesSound(UpdateExpense(f, actor, id, p, elsewhere).state.expenses)
  {
    var at := Find(f.expenses, ExpenseId, id).value;
    assert f.expenses[at] in f.expenses;
    ReplacedRowIsSound(f.expenses, at, Amended(f.expenses[at], p));
  }

  lemma RulingKeepsLedgerSound(f: EventFile, actor: Actor, id: nat, ruling: Ruling)
    requires ExpensesSound(f.expenses) && RuleOnExpense(f, actor, id, ruling).Accepted?
    ensures ExpensesSound(RuleOnExpense(f, actor, id, ruling).state.expenses)
  {
    var at := SubmittedClaim(f, actor, id).state;
    assert f.expenses[at] in f.expenses;
    ReplacedRowIsSound(f.expenses, at, Ruled(f.expenses[at], ruling));
  }

  lemma StepKeepsLedgerSound(f: EventFile, op: ExpenseOp, elsewhere: seq<Expense>)
    requires ExpensesSound(f.expenses)
    ensures ExpensesSound(After(f, Apply(f, op, elsewhere)).expenses)
  {
    var o := Apply(f, op, elsewhere);
    if o.Accepted? {
      match op
      case CreateExpenseOp(_, _, _) => AppendedRowIsSound(f.expenses, o.state.expenses[|f.expenses|]);
      case UpdateExpenseOp(actor, id, p) => AmendmentKeepsLedgerSound(f, actor, id, p, elsewhere);
      case DeleteExpenseOp(_, id) => RemovalIsSound(f.expenses, Find(f.expenses, ExpenseId, id).value);
      case SubmitExpensesOp(actor, ids) => SubmissionIsSound(f.expenses, ids, actor.id);
      case RuleOp(actor, id, ruling) => RulingKeepsLedgerSound(f, actor, id, ruling);
    }
  }

  lemma StepKeepsSound(f: EventFile, op: ExpenseOp, elsewhere: seq<Expense>)
    requires Sound(f)
    ensures Sound(After(f, Apply(f, op, elsewhere)))
  {
    StepKeepsLedgerSound(f, op, elsewhere);
    var f' := After(f, Apply(f, op, elsewhere));
    assert f' == f.(expenses := f'.expenses);
    assert f'.expenses != [] ==> f.status.Concluded();
    assert MoneySound(f') && LifecycleSound(f');
  }

  /** The expense service touches the expense ledger, nothing else. */
  lemma StepFrame(f: EventFile, op: ExpenseOp, elsewhere: seq<Expense>)
    ensures var f' := After(f, Apply(f, op, elsewhere));
            f' == f.(expenses := f'.expenses)
  {
  }
}
