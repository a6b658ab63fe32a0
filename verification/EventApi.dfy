/** The entry points of the event services: every request reaches one service method, and the
    rows then hold the record that the rules give. So what is proved of every run of rules holds
    of the rows, whatever requests arrive. */
module EventApi {
  import opened Common
  import opened Ledger
  import opened EventFiles
  import opened EventStore
  import Rules = EventRuns
  import S = SettlementRules
  import E = ExpenseRules
  import X = ExecutionRules
  import C = CloseoutRules
  import SettlementService
  import ExpenseService
  import ExecutionService
  import CloseoutService

  method Money(db: Store, op: S.SettlementOp) returns (r: Reply)
    modifies db, db.advance, db.settlement
    ensures r == S.Apply(old(db.File()), op).Reply()
    ensures db.File() == After(old(db.File()), S.Apply(old(db.File()), op))
  {
    match op {
      case RequestAdvanceOp(actor, amount) => r := SettlementService.RequestAdvance(db, actor, amount);
      case ApproveAdvanceOp(actor, amount) => r := SettlementService.ApproveAdvance(db, actor, amount);
      case RejectAdvanceOp(actor, reason) => r := SettlementService.RejectAdvance(db, actor, reason);
      case DisburseAdvanceOp(actor, amount, reference) =>
        r := SettlementService.DisburseAdvance(db, actor, amount, reference);
      case RecordIncomeOp(actor, id, amount, texts, evidence) =>
        r := SettlementService.RecordIncome(db, actor, id, amount, texts, evidence);
      case VerifyIncomeOp(actor, id) => r := SettlementService.VerifyIncome(db, actor, id);
      case RejectIncomeOp(actor, id, reason) => r := SettlementService.RejectIncome(db, actor, id, reason);
      case PrepareOp(actor) => r := SettlementService.PrepareSettlement(db, actor);
      case SubmitOp(actor, found) => r := SettlementService.SubmitSettlement(db, actor, found);
      case AuditOp(actor, decision, found) => r := SettlementService.AuditSettlement(db, actor, decision, found);
      case PayOp(actor, kind, amount, reference, proof) =>
        r := SettlementService.RecordPayment(db, actor, kind, amount, reference, proof);
      case ReopenOp(actor, reason) => r := SettlementService.ReopenSettlement(db, actor, reason);
    }
  }

  method Expenses(db: Store, op: E.ExpenseOp, elsewhere: seq<Expense>) returns (r: Reply)
    modifies db
    ensures db.advance == old(db.advance) && db.settlement == old(db.settlement)
    ensures r == E.Apply(old(db.File()), op, elsewhere).Reply()
    ensures db.File() == After(old(db.File()), E.Apply(old(db.File()), op, elsewhere))
  {
    match op {
      case CreateExpenseOp(actor, id, claim) =>
        r := ExpenseService.CreateDraftExpense(db, actor, id, claim, elsewhere);
      case UpdateExpenseOp(actor, id, patch) =>
        r := ExpenseService.UpdateExpense(db, actor, id, patch, elsewhere);
      case DeleteExpenseOp(actor, id) => r := ExpenseService.DeleteDraftExpense(db, actor, id);
      case SubmitExpensesOp(actor, ids) => r := ExpenseService.SubmitExpenses(db, actor, ids);
      case RuleOp(actor, id, ruling) =>
        match ruling {
          case VerifyInFull => r := ExpenseService.VerifyExpense(db, actor, id);
          case VerifyPart(amount) => r := ExpenseService.PartialVerifyExpense(db, actor, id, amount);
          case QueryClaim => r := ExpenseService.QueryExpense(db, actor, id);
          case DisallowClaim => r := ExpenseService.DisallowExpense(db, actor, id);
        }
    }
  }

  method Execution(db: Store, op: X.ExecutionOp) returns (r: Reply)
    modifies db`status, db`report, db.advance
    ensures r == X.Apply(old(db.File()), op).Reply()
    ensures db.File() == After(old(db.File()), X.Apply(old(db.File()), op))
  {
    match op {
      case StartOp(actor, now) => r := ExecutionService.StartEvent(db, actor, now);
      case AdminStartOp(actor) => r := ExecutionService.AdminStartEvent(db, actor);
      case CompleteOp(actor) => r := ExecutionService.CompleteAndSubmitReport(db, actor);
      case ResubmitReportOp(actor) => r := ExecutionService.ResubmitReport(db, actor);
      case CertifyReportOp(actor) => r := ExecutionService.CertifyReport(db, actor);
      case RequestReportRevisionOp(actor) => r := ExecutionService.RequestReportRevision(db, actor);
      case CancelOp(actor) => r := ExecutionService.CancelConfirmedEvent(db, actor);
    }
  }

  method Closeout(db: Store, op: C.CloseoutOp) returns (r: Reply)
    modifies db, db.settlement
    ensures r == C.Apply(old(db.File()), op).Reply()
    ensures db.File() == After(old(db.File()), C.Apply(old(db.File()), op))
  {
    match op {
      case RequestCloseoutOp(actor, venue, now) => r := CloseoutService.RequestCloseout(db, actor, venue, now);
      case CertifyCloseoutOp(actor, delegated, cleared, venue, now) =>
        r := CloseoutService.CertifyCloseout(db, actor, delegated, cleared, venue, now);
      case RejectCloseoutOp(actor, delegated, reason) =>
        r := CloseoutService.RejectCloseout(db, actor, delegated, reason);
      case RequestReopenOp(actor, reason) => r := CloseoutService.RequestReopen(db, actor, reason);
      case ApproveReopenOp(actor, reason) => r := CloseoutService.ApproveReopen(db, actor, reason);
      case ArchiveOp(actor) => r := CloseoutService.ArchiveEvent(db, actor);
    }
  }

  /** Any request at all: the reply and the new rows are those of one step of a run, and sound
      rows stay sound. */
  method Handle(db: Store, op: Rules.EventOp) returns (r: Reply)
    modifies db, db.advance, db.settlement
    ensures r == Rules.Attempt(old(db.File()), op).Reply()
    ensures db.File() == Rules.Step(old(db.File()), op)
    ensures old(Sound(db.File())) ==> Sound(db.File())
  {
    ghost var before := db.File();
    match op {
      case ExecutionStep(x) => r := Execution(db, x);
      case ExpenseStep(e, elsewhere) => r := Expenses(db, e, elsewhere);
      case MoneyStep(m) => r := Money(db, m);
      case CloseoutStep(c) => r := Closeout(db, c);
    }
    if Sound(before) {
      Rules.StepKeepsSound(before, op);
    }
  }
}
