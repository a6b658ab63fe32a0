/** What a caller of the expense service can rely on: exactly when each operation goes through, and
    what the ledger then says, row by row. */
module ExpenseOutcomes {
  import opened Common
  import opened Ledger
  import opened EventFiles
  import opened ExpenseRules
  import S = SettlementOutcomes

  /** A live claim of this invoice. */
  ghost predicate Claims(e: Expense, vendor: string, number: string, date: int) {
    e.status != Disallowed && e.vendor == vendor && e.invoice == Some(number) && e.invoiceDate == date
  }

  /** The invoice is live in another event, or in this one on another bill; `but` is the claim that
      is being amended itself. A blank number is never a duplicate. */
  ghost predicate TakenElsewhere(own: seq<Expense>, elsewhere: seq<Expense>, but: Option<nat>,
                                 vendor: string, invoice: Option<string>, date: int, bill: nat)
  {
    && invoice.Some?
    && (|| (exists e :: e in elsewhere && Claims(e, vendor, invoice.value, date))
        || (exists e :: e in own && Claims(e, vendor, invoice.value, date) && e.bill != bill && but != Some(e.id)))
  }

  lemma DuplicatedMeansTaken(own: seq<Expense>, elsewhere: seq<Expense>, but: Option<nat>,
                             vendor: string, invoice: Option<string>, date: int, bill: nat)
    ensures Duplicated(own, elsewhere, but, vendor, invoice, date, bill)
       <==> TakenElsewhere(own, elsewhere, but, vendor, invoice, date, bill)
  {
    if invoice.Some? {
      assert forall e :: SameInvoice(e, vendor, invoice, date) <==> Claims(e, vendor, invoice.value, date);
    }
  }

  lemma NoRowWhen(rows: seq<Expense>, id: nat)
    ensures Find(rows, ExpenseId, id) == None <==> forall e :: e in rows ==> e.id != id
  {
    var at := Find(rows, ExpenseId, id);
    if at.Some? {
      assert rows[at.value] in rows && rows[at.value].id == id;
    } else {
      assert forall k :: 0 <= k < |rows| ==> ExpenseId(rows[k]) != id;
    }
  }

  // ---------- making a claim ----------

  lemma ClaimIsMadeWhen(f: EventFile, actor: Actor, id: nat, claim: Claim, elsewhere: seq<Expense>)
    ensures var o := CreateExpense(f, actor, id, claim, elsewhere);
            && (o.Accepted? <==>
                  && actor.secretary && f.status == Completed && 0 < claim.claimed
                  && claim.document.Some? && claim.document.value.owned
                  && !TakenElsewhere(f.expenses, elsewhere, None, claim.vendor, claim.invoice, claim.invoiceDate,
                                     claim.document.value.id)
                  && forall e :: e in f.expenses ==> e.id != id)
            && (o.Refused? ==>
                  match o.error
                  case Unprocessable => claim.claimed <= 0
                  case WorkflowState => f.status != Completed
                  case Forbidden => !actor.secretary
                  case NotFound => claim.document == None
                  case BadRequest => claim.document.Some? && !claim.document.value.owned
                  case Conflict => S.Shut(f) || (claim.document.Some? && TakenElsewhere(f.expenses, elsewhere, None,
                                     claim.vendor, claim.invoice, claim.invoiceDate, claim.document.value.id))
                  case IntegrityViolation => exists e :: e in f.expenses && e.id == id
                  case _ => false)
  {
    NoRowWhen(f.expenses, id);
    if claim.document.Some? {
      DuplicatedMeansTaken(f.expenses, elsewhere, None, claim.vendor, claim.invoice, claim.invoiceDate,
                           claim.document.value.id);
    }
  }

  /** The row that is stored is the claim that was made; nothing else on the record changes. */
  lemma ClaimIsStoredAsMade(f: EventFile, actor: Actor, id: nat, claim: Claim, elsewhere: seq<Expense>)
    requires CreateExpense(f, actor, id, claim, elsewhere).Accepted?
    ensures var f' := CreateExpense(f, actor, id, claim, elsewhere).state;
            && f' == f.(expenses := f'.expenses)
            && |f'.expenses| == |f.expenses| + 1 && f'.expenses[..|f.expenses|] == f.expenses
            && var e := f'.expenses[|f.expenses|];
               && e.id == id && e.category == claim.category && e.vendor == claim.vendor
               && e.invoice == claim.invoice && e.invoiceDate == claim.invoiceDate
               && claim.document.Some? && e.bill == claim.document.value.id
               && e.claimed == claim.claimed && e.verified == None && e.status == Draft
               && e.submittedBy == actor.id && (e.flagged <==> claim.invoice == None)
  {
  }

  /** Once a numbered invoice is claimed, no event that sees the claim accepts it again. */
  lemma InvoiceIsNotClaimedTwice(f: EventFile, actor: Actor, id: nat, claim: Claim, elsewhere: seq<Expense>,
                                 g: EventFile, actor': Actor, id': nat, claim': Claim, elsewhere': seq<Expense>)
    requires CreateExpense(f, actor, id, claim, elsewhere).Accepted? && claim.invoice.Some?
    requires claim'.vendor == claim.vendor && claim'.invoice == claim.invoice
    requires claim'.invoiceDate == claim.invoiceDate
    requires var f' := CreateExpense(f, actor, id, claim, elsewhere).state;
             forall e :: e in f'.expenses ==> e in elsewhere'
    ensures CreateExpense(g, actor', id', claim', elsewhere').Refused?
  {
    var f' := CreateExpense(f, actor, id, claim, elsewhere).state;
    var e := f'.expenses[|f.expenses|];
    assert e in f'.expenses && SameInvoice(e, claim'.vendor, claim'.invoice, claim'.invoiceDate);
  }

  // ---------- amending and withdrawing ----------

  ghost predicate Kept<T>(given: Option<T>, before: T, after: T) {
    after == (if given.Some? then given.value else before)
  }

  /** Every field given replaced, every other kept. */
  ghost predicate AmendedAs(e: Expense, p: ExpensePatch, e': Expense) {
    && e'.id == e.id && e'.verified == e.verified && e'.status == e.status && e'.submittedBy == e.submittedBy
    && Kept(p.category, e.category, e'.category) && Kept(p.vendor, e.vendor, e'.vendor)
    && Kept(p.invoice, e.invoice, e'.invoice) && Kept(p.invoiceDate, e.invoiceDate, e'.invoiceDate)
    && Kept(p.claimed, e.claimed, e'.claimed) && Kept(p.bill, e.bill, e'.bill)
    && (e'.flagged <==> e'.invoice == None)
  }

  ghost predicate NewBillOwned(e: Expense, p: ExpensePatch) {
    p.bill.Some? && p.bill.value != e.bill ==> p.document.Some? && p.document.value.owned
  }

  /** The k-th claim, amended while draft or queried. */
  lemma ClaimIsAmendedWhen(f: EventFile, actor: Actor, k: nat, p: ExpensePatch, elsewhere: seq<Expense>, e': Expense)
    requires UniqueIds(f.expenses, ExpenseId) && k < |f.expenses| && AmendedAs(f.expenses[k], p, e')
    ensures var e := f.expenses[k];
            var o := UpdateExpense(f, actor, e.id, p, elsewhere);
            && (o.Accepted? <==>
                  && actor.secretary && !S.Shut(f) && (e.status == Draft || e.status == Queried)
                  && (p.claimed.Some? ==> 0 < p.claimed.value) && NewBillOwned(e, p)
                  && !TakenElsewhere(f.expenses, elsewhere, Some(e.id), e'.vendor, e'.invoice, e'.invoiceDate, e'.bill))
            && (o.Accepted? ==> o.state == f.(expenses := f.expenses[k := e']))
            && (o.Refused? ==>
                  match o.error
                  case Unprocessable => p.claimed.Some? && p.claimed.value <= 0
                  case Forbidden => !actor.secretary
                  case WorkflowState => e.status != Draft && e.status != Queried
                  case NotFound => !NewBillOwned(e, p) && p.document == None
                  case BadRequest => !NewBillOwned(e, p) && p.document.Some?
                  case Conflict => S.Shut(f) || TakenElsewhere(f.expenses, elsewhere, Some(e.id), e'.vendor, e'.invoice,
                                                               e'.invoiceDate, e'.bill)
                  case _ => false)
  {
    S.FindsTheRow(f.expenses, ExpenseId, k);
    assert e' == Amended(f.expenses[k], p);
    DuplicatedMeansTaken(f.expenses, elsewhere, Some(f.expenses[k].id), e'.vendor, e'.invoice, e'.invoiceDate, e'.bill);
  }

  lemma ClaimIsWithdrawnWhen(f: EventFile, actor: Actor, k: nat)
    requires UniqueIds(f.expenses, ExpenseId) && k < |f.expenses|
    ensures var e := f.expenses[k];
            var o := DeleteExpense(f, actor, e.id);
            && (o.Accepted? <==> actor.secretary && !S.Shut(f) && (e.status == Draft || e.status == Queried))
            && (o.Accepted? ==> o.state == f.(expenses := f.expenses[..k] + f.expenses[k + 1..]))
            && (o.Refused? ==>
                  match o.error
                  case Forbidden => !actor.secretary
                  case WorkflowState => e.status != Draft && e.status != Queried
                  case Conflict => S.Shut(f)
                  case _ => false)
  {
    S.FindsTheRow(f.expenses, ExpenseId, k);
  }

  lemma UnknownClaimIsNotFound(f: EventFile, actor: Actor, id: nat, p: ExpensePatch, elsewhere: seq<Expense>)
    requires actor.secretary && !S.Shut(f) && p.claimed == None && forall e :: e in f.expenses ==> e.id != id
    ensures UpdateExpense(f, actor, id, p, elsewhere) == Refused(NotFound) == DeleteExpense(f, actor, id)
  {
    NoRowWhen(f.expenses, id);
  }

  // ---------- submission ----------

  /** Draft or queried, and asked for; no ids ask for all. */
  ghost predicate Chosen(e: Expense, ids: seq<nat>) {
    (e.status == Draft || e.status == Queried) && (|ids| == 0 || e.id in ids)
  }

  lemma ClaimsAreSubmittedWhen(f: EventFile, actor: Actor, ids: seq<nat>)
    ensures var o := SubmitExpenses(f, actor, ids);
            && (o.Accepted? <==>
                  actor.secretary && f.status == Completed && exists e :: e in f.expenses && Chosen(e, ids))
            && (o.Accepted? ==>
                  && o.state == f.(expenses := o.state.expenses) && |o.state.expenses| == |f.expenses|
                  && forall k :: 0 <= k < |f.expenses| ==>
                       var e := f.expenses[k];
                       o.state.expenses[k]
                       == (if Chosen(e, ids) then e.(status := Submitted, submittedBy := actor.id) else e))
            && (o.Refused? ==>
                  match o.error
                  case Conflict => S.Shut(f)
                  case WorkflowState => f.status != Completed
                  case Forbidden => !actor.secretary
                  case BadRequest => forall e :: e in f.expenses ==> !Chosen(e, ids)
                  case _ => false)
  {
    assert forall e :: Chosen(e, ids) <==> Selected(e, ids);
  }

  // ---------- rulings ----------

  /** What a ruling makes of a submitted claim. */
  ghost predicate RuledAs(e: Expense, ruling: Ruling, e': Expense) {
    && e' == e.(status := e'.status, verified := e'.verified)
    && match ruling
       case VerifyInFull => e'.status == Verified && e'.verified == Some(e.claimed)
       case VerifyPart(amount) => e'.status == PartiallyVerified && e'.verified == Some(amount)
       case QueryClaim => e'.status == Queried && e'.verified == e.verified
       case DisallowClaim => e'.status == Disallowed && e'.verified == Some(0)
  }

  /** The k-th claim, ruled on by an officer once the report is certified. */
  lemma ClaimIsRuledOnWhen(f: EventFile, actor: Actor, k: nat, ruling: Ruling)
    requires UniqueIds(f.expenses, ExpenseId) && k < |f.expenses|
    ensures var e := f.expenses[k];
            var o := RuleOnExpense(f, actor, e.id, ruling);
            var certified := f.report.Some? && f.report.value.status == Certified;
            && (o.Accepted? <==> S.ByOfficer(actor) && !S.Shut(f) && certified && e.status == Submitted
                                 && (ruling.VerifyPart? ==> 0 < ruling.amount < e.claimed))
            && (o.Accepted? ==>
                  && |o.state.expenses| == |f.expenses| && RuledAs(e, ruling, o.state.expenses[k])
                  && o.state == f.(expenses := f.expenses[k := o.state.expenses[k]]))
            && (o.Refused? ==>
                  match o.error
                  case Forbidden => !S.ByOfficer(actor)
                  case Conflict => S.Shut(f)
                  case WorkflowState => !certified || e.status != Submitted
                  case BadRequest => ruling.VerifyPart? && !(0 < ruling.amount < e.claimed)
                  case _ => false)
  {
    S.FindsTheRow(f.expenses, ExpenseId, k);
  }

  /** The officer's figure is what counts: a claim verified in part adds exactly that part to the
      verified total, one verified in full all of it, and the rest of the claim is disallowed. */
  lemma RulingCounts(f: EventFile, actor: Actor, k: nat, ruling: Ruling)
    requires ExpensesSound(f.expenses) && k < |f.expenses|
    requires RuleOnExpense(f, actor, f.expenses[k].id, ruling).Accepted?
    ensures var e := f.expenses[k];
            var f' := RuleOnExpense(f, actor, e.id, ruling).state;
            var verified := Sum(f'.expenses, VerifiedPart) - Sum(f.expenses, VerifiedPart);
            var disallowed := Sum(f'.expenses, DisallowedPart) - Sum(f.expenses, DisallowedPart);
            && (ruling.VerifyInFull? ==> verified == e.claimed && disallowed == 0)
            && (ruling.VerifyPart? ==> verified == ruling.amount && disallowed == e.claimed - ruling.amount)
            && (ruling.QueryClaim? ==> verified == 0 && disallowed == 0)
            && (ruling.DisallowClaim? ==> verified == 0 && disallowed == e.claimed)
  {
    var e := f.expenses[k];
    ClaimIsRuledOnWhen(f, actor, k, ruling);
    var e' := RuleOnExpense(f, actor, e.id, ruling).state.expenses[k];
    assert e in f.expenses && e.Sound();
    SumOfUpdate(f.expenses, k, e', VerifiedPart);
    SumOfUpdate(f.expenses, k, e', DisallowedPart);
  }
}
