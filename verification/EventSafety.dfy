/** What closed, archived, cancelled and stranded events can and cannot do. */
module EventSafety {
  import opened Common
  import opened Ledger
  import opened EventFiles
  import opened SettlementRules
  import opened CloseoutRules
  import opened EventRuns
  import X = ExecutionRules
  import E = ExpenseRules

  // ---------- closed events are frozen ----------

  ghost predicate ApprovesReopen(op: EventOp) { op.CloseoutStep? && op.closeout.ApproveReopenOp? }

  /** Everything a closure certifies: all of the record but its status. */
  ghost predicate SameContents(f: EventFile, f': EventFile) { f' == f.(status := f'.status) }

  ghost predicate NothingPending(f: EventFile) { !AdvancePending(f.advance) && !AnyRecorded(f.incomes) }

  /** The guards that read the status stop all but three operations; those three need a pending
      advance or a recorded income. */
  lemma SealedStepChangesNothing(f: EventFile, op: EventOp)
    requires f.status.Sealed() && NothingPending(f) && !ApprovesReopen(op)
    ensures SameContents(f, Step(f, op)) && Step(f, op).status.Sealed()
    ensures f.status.Archived? ==> Step(f, op) == f
  {
    match op
    case ExecutionStep(x) =>
    case ExpenseStep(e, elsewhere) =>
    case MoneyStep(m) => SealedMoneyStep(f, m);
    case CloseoutStep(c) =>
  }

  lemma SealedMoneyStep(f: EventFile, op: SettlementOp)
    requires f.status.Sealed() && NothingPending(f)
    ensures After(f, SettlementRules.Apply(f, op)) == f
  {
    if op.RejectIncomeOp? {
      var at := Find(f.incomes, IncomeId, op.id);
      assert at.Some? ==> f.incomes[at.value] in f.incomes;
    }
  }

  /** While an event stays closed or archived nothing in its record moves; an archived event
      never changes again. */
  lemma {:induction false} SealedRunIsFrozen(f: EventFile, ops: seq<EventOp>)
    requires Sound(f) && f.status.Sealed()
    requires f.status.Closed? ==> forall op :: op in ops ==> !ApprovesReopen(op)
    ensures SameContents(f, Run(f, ops)) && Run(f, ops).status.Sealed()
    ensures f.status.Archived? ==> Run(f, ops) == f
  {
    if ops != [] {
      var before, op := ops[..|ops| - 1], ops[|ops| - 1];
      SealedRunIsFrozen(f, before);
      if ApprovesReopen(op) {
        assert f.status.Archived?;
      } else {
        SealedStepChangesNothing(Run(f, before), op);
      }
    }
  }

  const FINANCE: nat := 7

  function Officer(id: nat): Actor { Actor(id, FinanceOfficer, false, false) }

  /** The certification condition is exactly what the freeze rests on: a closed record with
      sound ledgers is immune to every operation other than reopening if and only if it has no
      requested or approved advance and no recorded income. */
  lemma FreezeNeedsNothingPending(f: EventFile)
    requires f.status.Closed? && AdvanceSound(f.advance, f.sanction) && IncomesSound(f.incomes)
    ensures NothingPending(f)
       <==> forall op: EventOp :: !ApprovesReopen(op) ==> SameContents(f, Step(f, op))
  {
    if NothingPending(f) {
      forall op: EventOp | !ApprovesReopen(op)
        ensures SameContents(f, Step(f, op))
      {
        SealedStepChangesNothing(f, op);
      }
    } else if AnyRecorded(f.incomes) {
      var i :| i in f.incomes && i.status.Recorded?;
      var at := Find(f.incomes, IncomeId, i.id);
      assert at.Some? && f.incomes[at.value] == i by {
        var k :| 0 <= k < |f.incomes| && f.incomes[k] == i;
        assert IncomeId(f.incomes[k]) == i.id;
      }
      var op := MoneyStep(RejectIncomeOp(Officer(i.recordedBy + 1), i.id, true));
      assert Step(f, op).incomes[at.value].status.IncomeRejected?;
      assert !SameContents(f, Step(f, op));
    } else if f.advance.value.status.Requested? {
      var op := MoneyStep(RejectAdvanceOp(Officer(FINANCE), true));
      assert !SameContents(f, Step(f, op));
    } else {
      var op := MoneyStep(DisburseAdvanceOp(Officer(FINANCE), f.advance.value.approved.value, true));
      assert !SameContents(f, Step(f, op));
    }
  }

  // ---------- cancelled events ----------

  /** Cancellation is final and clean: no pending advance, no expense and no settlement, ever. */
  lemma {:induction false} CancelledStaysClean(f: EventFile, ops: seq<EventOp>)
    requires Sound(f) && f.status.Cancelled?
    ensures var f' := Run(f, ops);
            && f'.status.Cancelled?
            && !AdvancePending(f'.advance)
            && f'.settlement.None? && f'.payments == [] && f'.expenses == []
            && DisbursedPart(f'.advance) == DisbursedPart(f.advance)
  {
    RunKeepsSound(f, ops);
    if ops != [] {
      var before := ops[..|ops| - 1];
      CancelledStaysClean(f, before);
      RunKeepsSound(f, before);
      CancelledStep(Run(f, before), ops[|ops| - 1]);
    }
  }

  lemma CancelledStep(f: EventFile, op: EventOp)
    requires f.status.Cancelled? && !AdvancePending(f.advance)
    ensures Step(f, op).status.Cancelled? && Step(f, op).advance == f.advance
  {
    match op
    case ExecutionStep(x) =>
    case ExpenseStep(e, elsewhere) => E.StepFrame(f, e, elsewhere);
    case MoneyStep(m) => SettlementRules.StepFrame(f, m);
    case CloseoutStep(c) =>
  }

  // ---------- resubmitting a reopened settlement without preparing it again ----------

  /** Approved for payment with nothing to pay. */
  ghost predicate Stranded(f: EventFile) {
    && f.settlement.Some?
    && (f.settlement.value.status.PendingReimbursement? || f.settlement.value.status.PendingRefund?)
    && Due(f.settlement.value, f.payments) == 0
  }

  /** A stranded settlement is a dead end: no sequence of operations changes it, so the event can
      never be closed. */
  lemma {:induction false} StrandedForever(f: EventFile, ops: seq<EventOp>)
    requires Sound(f) && Stranded(f)
    ensures Run(f, ops).settlement == f.settlement && Run(f, ops).payments == f.payments
    ensures !Run(f, ops).status.Sealed()
  {
    RunKeepsSound(f, ops);
    if ops != [] {
      var before := ops[..|ops| - 1];
      StrandedForever(f, before);
      RunKeepsSound(f, before);
      StrandedStep(Run(f, before), ops[|ops| - 1]);
    }
  }

  lemma StrandedStep(f: EventFile, op: EventOp)
    requires Sound(f) && Stranded(f)
    ensures Step(f, op).settlement == f.settlement && Step(f, op).payments == f.payments
  {
    if !Reopens(op) && !(op.MoneyStep? && op.money.PayOp?) {
      OtherStepsLeaveRoundAlone(f, op);
    } else if op.CloseoutStep? {
      assert !f.status.Closed?;
    }
  }

  /** An approval strands a settlement exactly when it has a direction but nothing is due. */
  lemma ApprovalStrandsExactlyWhen(f: EventFile, actor: Actor, found: bool)
    requires Sound(f) && AuditSettlement(f, actor, Approve, found).Accepted?
    ensures Stranded(AuditSettlement(f, actor, Approve, found).state)
       <==> && !f.settlement.value.figures.kind.Balanced?
            && NetCash(f.settlement.value.figures.advance, f.payments) == f.settlement.value.figures.payout
  {
  }

  /** An approved settlement that is not stranded can be settled: one payment of all that is due. */
  lemma DueCanBePaid(f: EventFile, actor: Actor, proof: Document)
    requires Sound(f) && f.settlement.Some? && !Stranded(f)
    requires f.settlement.value.status.PendingReimbursement? || f.settlement.value.status.PendingRefund?
    requires actor.role.FinanceOfficer? && proof.kind.PaymentProof? && proof.owned
    ensures var s := f.settlement.value;
            var kind := if s.status.PendingRefund? then AdvanceRefundReceipt else ReimbursementDisbursement;
            var o := RecordPayment(f, actor, kind, Due(s, f.payments), true, Some(proof));
            o.Accepted? && o.state.settlement.value.status.Settled?
  {
    assert !f.status.Sealed();
  }

  function ReopenedBy(f: EventFile, reopener: Actor): EventFile { After(f, ReopenSettlement(f, reopener, true)) }

  function SubmittedBy(f: EventFile, secretary: Actor, found: bool): EventFile {
    After(f, SubmitSettlement(f, secretary, found))
  }

  function ApprovedBy(f: EventFile, officer: Actor, found: bool): EventFile {
    After(f, AuditSettlement(f, officer, Approve, found))
  }

  function PreparedBy(f: EventFile, secretary: Actor): EventFile { After(f, PrepareSettlement(f, secretary)) }

  ghost predicate ReadyToReopen(f: EventFile, reopener: Actor, secretary: Actor, officer: Actor) {
    && Sound(f) && f.status.Completed? && f.settlement.Some? && f.settlement.value.status.Settled?
    && MayReopen(reopener) && MayActAsSecretary(secretary) && officer.role.FinanceOfficer?
  }

  /** Reopening a settled settlement and resubmitting it as it is strands it, unless it was
      balanced from the start. */
  lemma ResubmittedAsIs(f: EventFile, reopener: Actor, secretary: Actor, officer: Actor, found: bool)
    requires ReadyToReopen(f, reopener, secretary, officer)
    requires Staleness(f, f.settlement.value, found).None?
    ensures var f' := ApprovedBy(SubmittedBy(ReopenedBy(f, reopener), secretary, found), officer, found);
            Stranded(f') <==> !f.settlement.value.figures.kind.Balanced?
  {
    var s := f.settlement.value;
    var reopened := ReopenedBy(f, reopener);
    assert reopened == f.(settlement := Some(s.(status := Reopened)), revisions := reopened.revisions);
    var submitted := SubmittedBy(reopened, secretary, found);
    assert submitted == reopened.(settlement := Some(s.(status := UnderAudit)));
  }

  /** A settled settlement that is not stale, reopened and prepared again, is balanced. */
  lemma PreparedAgainIsBalanced(f: EventFile, reopener: Actor, secretary: Actor, officer: Actor)
    requires ReadyToReopen(f, reopener, secretary, officer)
    requires Staleness(f, f.settlement.value, true).None?
    ensures var reopened := ReopenedBy(f, reopener);
            var prepared := PreparedBy(reopened, secretary);
            && prepared.settlement.Some? && prepared == reopened.(settlement := prepared.settlement)
            && prepared.settlement.value.status.Drafted? && prepared.settlement.value.figures.kind.Balanced?
            && prepared.status.Completed? && Staleness(prepared, prepared.settlement.value, true).None?
  {
    var s := f.settlement.value;
    var reopened := ReopenedBy(f, reopener);
    assert reopened == f.(settlement := Some(s.(status := Reopened)), revisions := reopened.revisions);
    var prepared := PreparedBy(reopened, secretary);
    assert prepared.settlement.value.figures == LiveFigures(f, s.sanction.grant);
  }

  /** The stale-data check does not look at the status. */
  lemma StalenessIgnoresStatus(f: EventFile, status: SettlementStatus, found: bool)
    requires f.settlement.Some?
    ensures var s := f.settlement.value.(status := status);
            Staleness(f.(settlement := Some(s)), s, found) == Staleness(f, f.settlement.value, found)
  {
  }

  lemma FreshDraftIsSubmitted(f: EventFile, secretary: Actor)
    requires f.status.Completed? && MayActAsSecretary(secretary)
    requires f.settlement.Some? && f.settlement.value.status.Drafted?
    requires Staleness(f, f.settlement.value, true).None?
    ensures SubmittedBy(f, secretary, true) == f.(settlement := Some(f.settlement.value.(status := UnderAudit)))
  {
  }

  lemma BalancedAuditSettles(f: EventFile, officer: Actor)
    requires f.status.Completed? && officer.role.FinanceOfficer?
    requires f.settlement.Some? && f.settlement.value.status.UnderAudit? && f.settlement.value.figures.kind.Balanced?
    requires Staleness(f, f.settlement.value, true).None?
    ensures var f' := ApprovedBy(f, officer, true); f'.settlement.Some? && f'.settlement.value.status.Settled?
  {
  }

  lemma BalancedDraftSettles(f: EventFile, secretary: Actor, officer: Actor)
    requires f.status.Completed? && MayActAsSecretary(secretary) && officer.role.FinanceOfficer?
    requires f.settlement.Some? && f.settlement.value.status.Drafted? && f.settlement.value.figures.kind.Balanced?
    requires Staleness(f, f.settlement.value, true).None?
    ensures var f' := ApprovedBy(SubmittedBy(f, secretary, true), officer, true);
            f'.settlement.Some? && f'.settlement.value.status.Settled?
  {
    StalenessIgnoresStatus(f, UnderAudit, true);
    FreshDraftIsSubmitted(f, secretary);
    BalancedAuditSettles(SubmittedBy(f, secretary, true), officer);
  }

  /** Preparing it again first, with nothing changed, settles it on approval. */
  lemma PreparedAgain(f: EventFile, reopener: Actor, secretary: Actor, officer: Actor)
    requires ReadyToReopen(f, reopener, secretary, officer)
    requires Staleness(f, f.settlement.value, true).None?
    ensures var prepared := PreparedBy(ReopenedBy(f, reopener), secretary);
            var f' := ApprovedBy(SubmittedBy(prepared, secretary, true), officer, true);
            f'.settlement.Some? && f'.settlement.value.status.Settled?
  {
    PreparedAgainIsBalanced(f, reopener, secretary, officer);
    BalancedDraftSettles(PreparedBy(ReopenedBy(f, reopener), secretary), secretary, officer);
  }

  // ---------- decided rows ----------

  /** Terminal claims, judged incomes and a paid or rejected advance are the audit's record. */
  ghost predicate DecisionsKept(f: EventFile, f': EventFile) {
    && (forall e :: e in f.expenses && e.Terminal() ==> e in f'.expenses)
    && (forall i :: i in f.incomes && !i.status.Recorded? ==> i in f'.incomes)
    && (f.advance.Some? && !f.advance.value.Pending() ==> f'.advance == f.advance)
  }

  lemma ReplacedRowKeepsOthers<T>(rows: seq<T>, at: nat, row: T, x: T)
    requires at < |rows| && x in rows && x != rows[at]
    ensures x in rows[at := row]
  {
    var k :| 0 <= k < |rows| && rows[k] == x;
    assert rows[at := row][k] == x;
  }

  lemma RemovedRowKeepsOthers<T>(rows: seq<T>, at: nat, x: T)
    requires at < |rows| && x in rows && x != rows[at]
    ensures x in RemoveAt(rows, at)
  {
  }

  lemma TerminalClaimStays(f: EventFile, op: E.ExpenseOp, elsewhere: seq<Expense>, e: Expense)
    requires e in f.expenses && e.Terminal()
    ensures e in After(f, E.Apply(f, op, elsewhere)).expenses
  {
    var o := E.Apply(f, op, elsewhere);
    if o.Accepted? {
      match op
      case CreateExpenseOp(_, _, _) =>
      case UpdateExpenseOp(_, id, p) =>
        var at := Find(f.expenses, ExpenseId, id).value;
        ReplacedRowKeepsOthers(f.expenses, at, E.Amended(f.expenses[at], p), e);
      case DeleteExpenseOp(_, id) => RemovedRowKeepsOthers(f.expenses, Find(f.expenses, ExpenseId, id).value, e);
      case SubmitExpensesOp(actor, ids) =>
        var k :| 0 <= k < |f.expenses| && f.expenses[k] == e;
        assert o.state.expenses[k] == E.SubmittedRow(e, ids, actor.id) == e;
      case RuleOp(actor, id, ruling) =>
        var at := E.SubmittedClaim(f, actor, id).state;
        ReplacedRowKeepsOthers(f.expenses, at, E.Ruled(f.expenses[at], ruling), e);
    }
  }

  lemma JudgedIncomeStays(f: EventFile, op: SettlementOp, i: Income)
    requires i in f.incomes && !i.status.Recorded?
    ensures i in After(f, SettlementRules.Apply(f, op)).incomes
  {
    var o := SettlementRules.Apply(f, op);
    if o.Accepted? && (op.VerifyIncomeOp? || op.RejectIncomeOp?) {
      var at := Find(f.incomes, IncomeId, op.id).value;
      ReplacedRowKeepsOthers(f.incomes, at, o.state.incomes[at], i);
    }
  }

  lemma DecidedAdvanceStays(f: EventFile, op: SettlementOp)
    requires f.advance.Some? && !f.advance.value.Pending()
    ensures After(f, SettlementRules.Apply(f, op)).advance == f.advance
  {
  }

  lemma StepKeepsDecisions(f: EventFile, op: EventOp)
    ensures DecisionsKept(f, Step(f, op))
  {
    match op
    case ExecutionStep(x) => X.StepFrame(f, x);
    case ExpenseStep(e, elsewhere) =>
      E.StepFrame(f, e, elsewhere);
      forall r | r in f.expenses && r.Terminal()
        ensures r in Step(f, op).expenses
      {
        TerminalClaimStays(f, e, elsewhere, r);
      }
    case MoneyStep(m) =>
      SettlementRules.StepFrame(f, m);
      forall i | i in f.incomes && !i.status.Recorded?
        ensures i in Step(f, op).incomes
      {
        JudgedIncomeStays(f, m, i);
      }
      if f.advance.Some? && !f.advance.value.Pending() {
        DecidedAdvanceStays(f, m);
      }
    case CloseoutStep(c) =>
      if c.ApproveReopenOp? {
        ApproveReopenFrame(f, c.actor, c.reasonGiven);
      } else {
        CloseoutRules.StepFrame(f, c);
      }
  }

  /** What an officer decided about a claim, an income or the advance is never edited, removed
      or decided again, through any number of reopenings. */
  lemma {:induction false} DecisionsAreFinal(f: EventFile, ops: seq<EventOp>)
    ensures DecisionsKept(f, Run(f, ops))
  {
    if ops != [] {
      DecisionsAreFinal(f, ops[..|ops| - 1]);
      StepKeepsDecisions(Run(f, ops[..|ops| - 1]), ops[|ops| - 1]);
    }
  }
}
