/** No invoice is claimed twice: across events never, within one event only as an itemised
    split of one bill. */
module Invoices {
  import opened Common
  import opened Ledger
  import opened EventFiles
  import opened ExpenseRules

  /** Two live claims of one invoice. */
  ghost predicate SameLive(a: Expense, b: Expense) {
    !a.status.Disallowed? && SameInvoice(b, a.vendor, a.invoice, a.invoiceDate)
  }

  ghost predicate CleanWithin(expenses: seq<Expense>) {
    forall a, b :: a in expenses && b in expenses && SameLive(a, b) ==> a.bill == b.bill
  }

  ghost predicate CleanAcross(expenses: seq<Expense>, elsewhere: seq<Expense>) {
    forall a, b :: a in expenses && b in elsewhere ==> !SameLive(a, b)
  }

  /** `e'` claims no more than `e` did: same invoice and bill, and live only if `e` was. */
  ghost predicate NoFurther(e': Expense, e: Expense) {
    && e'.vendor == e.vendor && e'.invoice == e.invoice && e'.invoiceDate == e.invoiceDate && e'.bill == e.bill
    && (e.status.Disallowed? ==> e'.status.Disallowed?)
  }

  ghost predicate AllNoFurther(expenses': seq<Expense>, expenses: seq<Expense>) {
    forall e' :: e' in expenses' ==> exists e :: e in expenses && NoFurther(e', e)
  }

  /** Ruling, submitting and deleting never add a claim. */
  lemma NoNewClaims(expenses: seq<Expense>, expenses': seq<Expense>, elsewhere: seq<Expense>)
    requires AllNoFurther(expenses', expenses) && CleanWithin(expenses) && CleanAcross(expenses, elsewhere)
    ensures CleanWithin(expenses') && CleanAcross(expenses', elsewhere)
  {
    forall a', b' | a' in expenses' && b' in expenses' && SameLive(a', b')
      ensures a'.bill == b'.bill
    {
      var a :| a in expenses && NoFurther(a', a);
      var b :| b in expenses && NoFurther(b', b);
      assert SameLive(a, b);
    }
    forall a', b | a' in expenses' && b in elsewhere
      ensures !SameLive(a', b)
    {
      var a :| a in expenses && NoFurther(a', a);
      assert !SameLive(a, b);
    }
  }

  /** A created or amended claim that passed the duplicate check. */
  lemma CheckedClaim(expenses: seq<Expense>, expenses': seq<Expense>, elsewhere: seq<Expense>, e: Expense,
                     exclude: Option<nat>)
    requires CleanWithin(expenses) && CleanAcross(expenses, elsewhere)
    requires !Duplicated(expenses, elsewhere, exclude, e.vendor, e.invoice, e.invoiceDate, e.bill)
    requires forall x :: x in expenses' ==> x == e || (x in expenses && exclude != Some(x.id))
    ensures CleanWithin(expenses') && CleanAcross(expenses', elsewhere)
  {
    forall a, b | a in expenses' && b in expenses' && SameLive(a, b)
      ensures a.bill == b.bill
    {
      if a == e && b != e {
        assert SameInvoice(b, e.vendor, e.invoice, e.invoiceDate);
      } else if b == e && a != e {
        assert SameInvoice(a, e.vendor, e.invoice, e.invoiceDate);
      }
    }
  }

  /** Every operation of the expense service keeps invoices unique, within the event and against
      all other events. */
  lemma StepKeepsInvoicesUnique(f: EventFile, op: ExpenseOp, elsewhere: seq<Expense>)
    requires UniqueIds(f.expenses, ExpenseId)
    requires CleanWithin(f.expenses) && CleanAcross(f.expenses, elsewhere)
    ensures var f' := After(f, Apply(f, op, elsewhere));
            CleanWithin(f'.expenses) && CleanAcross(f'.expenses, elsewhere)
  {
    var o := Apply(f, op, elsewhere);
    if o.Accepted? {
      match op
      case CreateExpenseOp(_, _, _) =>
        CheckedClaim(f.expenses, o.state.expenses, elsewhere, o.state.expenses[|f.expenses|], None);
      case UpdateExpenseOp(_, id, patch) =>
        AmendmentIsClean(f, op, elsewhere);
      case DeleteExpenseOp(_, id) =>
        forall e' | e' in o.state.expenses
          ensures exists e :: e in f.expenses && NoFurther(e', e)
        {
          assert e' in f.expenses && NoFurther(e', e');
        }
        NoNewClaims(f.expenses, o.state.expenses, elsewhere);
      case SubmitExpensesOp(actor, ids) =>
        RowwiseNoFurther(f.expenses, o.state.expenses);
        NoNewClaims(f.expenses, o.state.expenses, elsewhere);
      case RuleOp(actor, id, ruling) =>
        assert !f.expenses[SubmittedClaim(f, actor, id).state].status.Disallowed?;
        RowwiseNoFurther(f.expenses, o.state.expenses);
        NoNewClaims(f.expenses, o.state.expenses, elsewhere);
    }
  }

  lemma RowwiseNoFurther(expenses: seq<Expense>, expenses': seq<Expense>)
    requires |expenses'| == |expenses|
    requires forall k :: 0 <= k < |expenses| ==> NoFurther(expenses'[k], expenses[k])
    ensures AllNoFurther(expenses', expenses)
  {
    forall e' | e' in expenses'
      ensures exists e :: e in expenses && NoFurther(e', e)
    {
      var k :| 0 <= k < |expenses'| && expenses'[k] == e';
      assert expenses[k] in expenses;
    }
  }

  lemma AmendmentIsClean(f: EventFile, op: ExpenseOp, elsewhere: seq<Expense>)
    requires op.UpdateExpenseOp? && Apply(f, op, elsewhere).Accepted?
    requires UniqueIds(f.expenses, ExpenseId)
    requires CleanWithin(f.expenses) && CleanAcross(f.expenses, elsewhere)
    ensures var f' := Apply(f, op, elsewhere).state;
            CleanWithin(f'.expenses) && CleanAcross(f'.expenses, elsewhere)
  {
    var f' := Apply(f, op, elsewhere).state;
    var at := Find(f.expenses, ExpenseId, op.id).value;
    forall x | x in f'.expenses
      ensures x == f'.expenses[at] || (x in f.expenses && Some(op.id) != Some(x.id))
    {
      var k :| 0 <= k < |f'.expenses| && f'.expenses[k] == x;
      if k != at {
        assert f.expenses[k] == x && ExpenseId(f.expenses[k]) != ExpenseId(f.expenses[at]);
      }
    }
    CheckedClaim(f.expenses, f'.expenses, elsewhere, f'.expenses[at], Some(op.id));
  }
}
