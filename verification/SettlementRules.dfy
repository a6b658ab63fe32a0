/** What each operation of the settlement service does to the record of an event:
    the cash advance, the income ledger and the settlement itself. */
module SettlementRules {
  import opened Common
  import opened Ledger
  import opened Fingerprint
  import opened EventFiles

  predicate MayActAsSecretary(actor: Actor) { actor.secretary && !actor.role.SystemAdmin? }

  predicate MayReopen(actor: Actor) {
    actor.role.FinanceOfficer? || actor.role.Principal? || actor.role.DeanStudentAffairs?
  }

  // ---------- cash advance ----------

  function RequestAdvance(f: EventFile, actor: Actor, amount: int): Outcome<EventFile> {
    if f.status.Sealed() then Refused(Conflict)
    else if !MayActAsSecretary(actor) then Refused(Forbidden)
    else if f.status.Cancelled? then Refused(WorkflowState)
    else if f.settlement.Some? && f.settlement.value.status.Settled? then Refused(WorkflowState)
    else if f.advance.Some? then Refused(Conflict)
    else if amount <= 0 then Refused(BadRequest)
    else Accepted(f.(advance := Some(Advance(amount, None, 0, Requested, actor.id))))
  }

  function ApproveAdvance(f: EventFile, actor: Actor, amount: int): Outcome<EventFile> {
    if !actor.role.FinanceOfficer? then Refused(Forbidden)
    else if f.advance.None? then Refused(NotFound)
    else if f.status.Sealed() then Refused(Conflict)
    else if !f.advance.value.status.Requested? then Refused(InvalidTransition)
    else if amount <= 0 then Refused(BadRequest)
    else if f.sanction.None? then Refused(BusinessRule)
    else if amount > f.sanction.value.grant then Refused(BusinessRule)
    else Accepted(f.(advance := Some(f.advance.value.(approved := Some(amount), status := Approved))))
  }

  function RejectAdvance(f: EventFile, actor: Actor, reasonGiven: bool): Outcome<EventFile> {
    if !actor.role.FinanceOfficer? then Refused(Forbidden)
    else if f.advance.None? then Refused(NotFound)
    else if !f.advance.value.status.Requested? then Refused(InvalidTransition)
    else if !reasonGiven then Refused(BadRequest)
    else Accepted(f.(advance := Some(f.advance.value.(status := Rejected))))
  }

  function DisburseAdvance(f: EventFile, actor: Actor, amount: int, referenceGiven: bool): Outcome<EventFile> {
    if !actor.role.FinanceOfficer? then Refused(Forbidden)
    else if f.advance.None? then Refused(NotFound)
    else if !f.advance.value.status.Approved? then Refused(InvalidTransition)
    else if !referenceGiven then Refused(BadRequest)
    else if amount <= 0 then Refused(BadRequest)
    else if f.advance.value.approved != Some(amount) then Refused(BusinessRule)
    else Accepted(f.(advance := Some(f.advance.value.(disbursed := amount, status := Disbursed))))
  }

  // ---------- actual income ----------

  function RecordIncome(f: EventFile, actor: Actor, id: nat, amount: int, textsGiven: bool,
                        evidence: Option<Document>): Outcome<EventFile>
  {
    if f.status.Sealed() then Refused(Conflict)
    else if !MayActAsSecretary(actor) then Refused(Forbidden)
    else if f.status.Cancelled? then Refused(WorkflowState)
    else if f.settlement.Some? && f.settlement.value.status.Settled? then Refused(WorkflowState)
    else if amount <= 0 then Refused(BadRequest)
    else if !textsGiven then Refused(BadRequest)
    else if evidence.None? then Refused(NotFound)
    else if !evidence.value.kind.IncomeEvidence? || !evidence.value.owned then Refused(BadRequest)
    else if Find(f.incomes, IncomeId, id).Some? then Refused(IntegrityViolation)
    else Accepted(f.(incomes := f.incomes + [Income(id, amount, Recorded, actor.id, None)]))
  }

  function VerifyIncome(f: EventFile, actor: Actor, id: nat): Outcome<EventFile> {
    var at := Find(f.incomes, IncomeId, id);
    if !actor.role.FinanceOfficer? then Refused(Forbidden)
    else if at.None? then Refused(NotFound)
    else if f.status.Sealed() then Refused(Conflict)
    else if f.incomes[at.value].recordedBy == actor.id then Refused(Forbidden)
    else if !f.incomes[at.value].status.Recorded? then Refused(InvalidTransition)
    else
      var row := f.incomes[at.value].(status := IncomeVerified, verifiedBy := Some(actor.id));
      Accepted(f.(incomes := f.incomes[at.value := row]))
  }

  function RejectIncome(f: EventFile, actor: Actor, id: nat, reasonGiven: bool): Outcome<EventFile> {
    var at := Find(f.incomes, IncomeId, id);
    if !actor.role.FinanceOfficer? then Refused(Forbidden)
    else if at.None? then Refused(NotFound)
    else if f.incomes[at.value].recordedBy == actor.id then Refused(Forbidden)
    else if !f.incomes[at.value].status.Recorded? then Refused(InvalidTransition)
    else if !reasonGiven then Refused(BadRequest)
    else
      var row := f.incomes[at.value].(status := IncomeRejected, verifiedBy := Some(actor.id));
      Accepted(f.(incomes := f.incomes[at.value := row]))
  }

  // ---------- the accounting engine ----------

  /** No settlement figures exist while a claim, an income or the advance is undecided. */
  predicate SourcesResolved(f: EventFile) {
    !AnyUnresolved(f.expenses) && !AnyRecorded(f.incomes) && !AdvancePending(f.advance)
  }

  function KindOf(balance: int): SettlementKind {
    if balance > 0 then ReimbursementDue else if balance < 0 then RefundDue else Balanced
  }

  /** The figures of a settlement, recomputed from the live ledgers and all payments ever made. */
  function LiveFigures(f: EventFile, grant: int): Figures {
    var verified := Sum(f.expenses, VerifiedPart);
    var income := Sum(f.incomes, IncomePart);
    var deficit := Max(0, verified - income);
    var payout := Payout(grant, verified, income);
    var advance := DisbursedPart(f.advance);
    var balance := payout - NetCash(advance, f.payments);
    Figures(Sum(f.expenses, ClaimedPart), verified, Sum(f.expenses, DisallowedPart), income,
            deficit, payout, advance, balance, Max(0, balance), Max(0, -balance), KindOf(balance))
  }

  function LiveFingerprint(f: EventFile, sanction: Sanction): Canonical {
    Compute(sanction.version, sanction.grant, f.expenses, f.incomes, f.advance)
  }

  function PrepareSettlement(f: EventFile, actor: Actor): Outcome<EventFile> {
    if f.status.Sealed() then Refused(Conflict)
    else if !MayActAsSecretary(actor) then Refused(Forbidden)
    else if !f.status.Completed? then Refused(WorkflowState)
    else if !ReportCertified(f) then Refused(WorkflowState)
    else if f.settlement.Some? && !f.settlement.value.status.Reopened? then Refused(Conflict)
    else if f.sanction.None? then Refused(BusinessRule)
    else if !SourcesResolved(f) then Refused(BusinessRule)
    else
      var sanction := f.sanction.value;
      var auditedBy := if f.settlement.Some? then f.settlement.value.auditedBy else None;
      Accepted(f.(settlement := Some(Settlement(
        sanction, LiveFigures(f, sanction.grant), Drafted, actor.id, auditedBy, LiveFingerprint(f, sanction)))))
  }

  /** Stale-data protection. `found` says whether the fingerprint recorded at preparation could
      be retrieved; when it could not, only the aggregates are compared. */
  function Staleness(f: EventFile, s: Settlement, found: bool): Option<Error> {
    if f.sanction.None? || !SourcesResolved(f) then Some(BusinessRule)
    else
      var sanction := f.sanction.value;
      var live := LiveFigures(f, sanction.grant);
      if || s.sanction.version != sanction.version
         || s.sanction.grant != sanction.grant
         || (found && s.fingerprint != LiveFingerprint(f, sanction))
         || s.figures.verified != live.verified
         || s.figures.income != live.income
         || s.figures.advance != live.advance
      then Some(StaleData) else None
  }

  function SubmitSettlement(f: EventFile, actor: Actor, found: bool): Outcome<EventFile> {
    if f.settlement.None? then Refused(NotFound)
    else
      var s := f.settlement.value;
      if f.status.Sealed() then Refused(Conflict)
      else if !MayActAsSecretary(actor) then Refused(Forbidden)
      else if !(s.status.Drafted? || s.status.SettlementQueried? || s.status.Reopened?)
      then Refused(InvalidTransition)
      else
        var stale := Staleness(f, s, found);
        if stale.Some? then Refused(stale.value)
        else Accepted(f.(settlement := Some(s.(status := UnderAudit))))
  }

  datatype Decision = Approve | Query(reasonGiven: bool) | Unknown

  function AuditSettlement(f: EventFile, actor: Actor, decision: Decision, found: bool): Outcome<EventFile> {
    if !actor.role.FinanceOfficer? then Refused(Forbidden)
    else if decision.Unknown? then Refused(BadRequest)
    else if f.settlement.None? then Refused(NotFound)
    else
      var s := f.settlement.value;
      if !s.status.UnderAudit? then Refused(InvalidTransition)
      else if f.status.Sealed() then Refused(Conflict)
      else
        var stale := Staleness(f, s, found);
        if stale.Some? then Refused(stale.value)
        else if decision.Query? then
          if !decision.reasonGiven then Refused(BadRequest)
          else Accepted(f.(settlement := Some(s.(status := SettlementQueried))))
        else
          var status := match s.figures.kind
            case Balanced => Settled
            case ReimbursementDue => PendingReimbursement
            case RefundDue => PendingRefund;
          Accepted(f.(settlement := Some(s.(status := status, auditedBy := Some(actor.id)))))
  }

  /** The payment type each settlement type admits. */
  predicate RightWay(kind: SettlementKind, payment: PaymentKind) {
    match kind
    case ReimbursementDue => payment.ReimbursementDisbursement?
    case RefundDue => payment.AdvanceRefundReceipt?
    case Balanced => false
  }

  function RecordPayment(f: EventFile, actor: Actor, kind: PaymentKind, amount: int, referenceGiven: bool,
                         proof: Option<Document>): Outcome<EventFile>
  {
    if !actor.role.FinanceOfficer? then Refused(Forbidden)
    else if f.settlement.None? then Refused(NotFound)
    else
      var s := f.settlement.value;
      if !(s.status.PendingReimbursement? || s.status.PendingRefund?) then Refused(InvalidTransition)
      else if f.status.Sealed() then Refused(Conflict)
      else if !RightWay(s.figures.kind, kind) then Refused(BusinessRule)
      else if amount <= 0 then Refused(BadRequest)
      else if !referenceGiven then Refused(BadRequest)
      else if proof.None? then Refused(NotFound)
      else if !proof.value.kind.PaymentProof? || !proof.value.owned then Refused(BadRequest)
      else if amount > Due(s, f.payments) then Refused(BusinessRule)
      else
        var payments := f.payments + [Payment(kind, amount, proof.value.id, actor.id)];
        var status := if Due(s, f.payments) - amount <= 0 then Settled else s.status;
        Accepted(f.(payments := payments, settlement := Some(s.(status := status))))
  }

  function ReopenSettlement(f: EventFile, actor: Actor, reasonGiven: bool): Outcome<EventFile> {
    if !MayReopen(actor) then Refused(Forbidden)
    else if !reasonGiven then Refused(BadRequest)
    else if f.settlement.None? then Refused(NotFound)
    else
      var s := f.settlement.value;
      if !s.status.Settled? then Refused(BusinessRule)
      else if f.status.Sealed() then Refused(Conflict)
      else
        var revision := SettlementRevision(|f.revisions| + 1, s, f.payments, actor.id);
        Accepted(f.(revisions := f.revisions + [revision], settlement := Some(s.(status := Reopened))))
  }

  // ---------- one step ----------

  datatype SettlementOp =
    | RequestAdvanceOp(actor: Actor, amount: int)
    | ApproveAdvanceOp(actor: Actor, amount: int)
    | RejectAdvanceOp(actor: Actor, reasonGiven: bool)
    | DisburseAdvanceOp(actor: Actor, amount: int, referenceGiven: bool)
    | RecordIncomeOp(actor: Actor, id: nat, amount: int, textsGiven: bool, evidence: Option<Document>)
    | VerifyIncomeOp(actor: Actor, id: nat)
    | RejectIncomeOp(actor: Actor, id: nat, reasonGiven: bool)
    | PrepareOp(actor: Actor)
    | SubmitOp(actor: Actor, found: bool)
    | AuditOp(actor: Actor, decision: Decision, found: bool)
    | PayOp(actor: Actor, kind: PaymentKind, amount: int, referenceGiven: bool, proof: Option<Document>)
    | ReopenOp(actor: Actor, reasonGiven: bool)

  function Apply(f: EventFile, op: SettlementOp): Outcome<EventFile> {
    match op
    case RequestAdvanceOp(actor, amount) => RequestAdvance(f, actor, amount)
    case ApproveAdvanceOp(actor, amount) => ApproveAdvance(f, actor, amount)
    case RejectAdvanceOp(actor, reason) => RejectAdvance(f, actor, reason)
    case DisburseAdvanceOp(actor, amount, reference) => DisburseAdvance(f, actor, amount, reference)
    case RecordIncomeOp(actor, id, amount, texts, evidence) => RecordIncome(f, actor, id, amount, texts, evidence)
    case VerifyIncomeOp(actor, id) => VerifyIncome(f, actor, id)
    case RejectIncomeOp(actor, id, reason) => RejectIncome(f, actor, id, reason)
    case PrepareOp(actor) => PrepareSettlement(f, actor)
    case SubmitOp(actor, found) => SubmitSettlement(f, actor, found)
    case AuditOp(actor, decision, found) => AuditSettlement(f, actor, decision, found)
    case PayOp(actor, kind, amount, reference, proof) => RecordPayment(f, actor, kind, amount, reference, proof)
    case ReopenOp(actor, reason) => ReopenSettlement(f, actor, reason)
  }

  // ---------- what each step keeps ----------

  /** What an advance may become: sound, never less disbursed than before, and decided once the
      event is cancelled or sealed. */
  ghost predicate AdvanceMoves(f: EventFile, advance: Option<Advance>) {
    && AdvanceSound(advance, f.sanction)
    && (DisbursedPart(f.advance) != 0 ==> DisbursedPart(advance) == DisbursedPart(f.advance))
    && (f.status.Cancelled? || f.status.Sealed() ==> !AdvancePending(advance))
  }

  lemma AdvanceMoveKeepsSound(f: EventFile, advance: Option<Advance>)
    requires Sound(f) && AdvanceMoves(f, advance)
    ensures Sound(f.(advance := advance))
  {
    var f' := f.(advance := advance);
    assert MoneySound(f') && HistorySound(f') && LifecycleSound(f');
  }

  lemma AdvanceStepMoves(f: EventFile, op: SettlementOp)
    requires Sound(f)
    requires op.RequestAdvanceOp? || op.ApproveAdvanceOp? || op.RejectAdvanceOp? || op.DisburseAdvanceOp?
    ensures var f' := After(f, Apply(f, op)); f' == f.(advance := f'.advance) && AdvanceMoves(f, f'.advance)
  {
  }

  lemma AdvanceStepKeepsSound(f: EventFile, op: SettlementOp)
    requires Sound(f)
    requires op.RequestAdvanceOp? || op.ApproveAdvanceOp? || op.RejectAdvanceOp? || op.DisburseAdvanceOp?
    ensures Sound(After(f, Apply(f, op)))
  {
    AdvanceStepMoves(f, op);
    AdvanceMoveKeepsSound(f, After(f, Apply(f, op)).advance);
  }

  lemma AppendedRowsAreSound(incomes: seq<Income>, row: Income)
    requires IncomesSound(incomes) && row.Sound() && Find(incomes, IncomeId, row.id).None?
    ensures IncomesSound(incomes + [row])
  {
  }

  lemma UpdatedRowsAreSound(incomes: seq<Income>, at: nat, row: Income)
    requires IncomesSound(incomes) && at < |incomes| && row.Sound() && row.id == incomes[at].id
    ensures IncomesSound(incomes[at := row])
  {
  }

  lemma IncomeStepKeepsSound(f: EventFile, op: SettlementOp)
    requires Sound(f)
    requires op.RecordIncomeOp? || op.VerifyIncomeOp? || op.RejectIncomeOp?
    ensures Sound(After(f, Apply(f, op)))
  {
    var o := Apply(f, op);
    if o.Accepted? {
      if op.RecordIncomeOp? {
        AppendedRowsAreSound(f.incomes, o.state.incomes[|f.incomes|]);
      } else {
        var at := Find(f.incomes, IncomeId, op.id).value;
        assert f.incomes[at] in f.incomes;
        UpdatedRowsAreSound(f.incomes, at, o.state.incomes[at]);
      }
      assert LifecycleSound(o.state);
    }
  }

  lemma FiguresAreSound(f: EventFile, grant: int)
    requires ExpensesSound(f.expenses) && IncomesSound(f.incomes) && AdvanceSound(f.advance, f.sanction)
    requires SourcesResolved(f)
    ensures FiguresSound(LiveFigures(f, grant), grant)
  {
    ClaimsAreConserved(f.expenses);
    SumIsNonNegative(f.expenses, VerifiedPart);
    SumIsNonNegative(f.expenses, DisallowedPart);
    SumIsNonNegative(f.incomes, IncomePart);
  }

  /** Whatever was paid in earlier rounds, recomputing with the live advance leaves the club's
      net cash non-negative. */
  lemma LiveNetCash(f: EventFile)
    requires AdvanceSound(f.advance, f.sanction) && MoneySound(f)
    requires f.sanction.Some? && 0 <= f.sanction.value.grant
    ensures 0 <= NetCash(DisbursedPart(f.advance), f.payments)
    ensures NetCash(0, f.payments) <= f.sanction.value.grant
  {
  }

  lemma PreparedIsSound(f: EventFile, s: Settlement)
    requires Sound(f) && f.sanction == Some(s.sanction) && SourcesResolved(f)
    requires s.figures == LiveFigures(f, s.sanction.grant) && s.status.Drafted?
    requires s.fingerprint == LiveFingerprint(f, s.sanction)
    ensures SettlementSound(s, f)
  {
    FiguresAreSound(f, s.sanction.grant);
    FingerprintFixesTotals(s.sanction.version, s.sanction.grant, f.expenses, f.incomes, f.advance);
    LiveNetCash(f);
  }

  /** A sound settlement on an unsealed, certified event keeps the whole record sound. */
  lemma SettlementKeepsSound(f: EventFile, s: Settlement)
    requires Sound(f) && !f.status.Sealed() && ReportCertified(f) && SettlementSound(s, f)
    ensures Sound(f.(settlement := Some(s)))
  {
    var f' := f.(settlement := Some(s));
    assert SettlementSound(s, f');
    assert MoneySound(f') && HistorySound(f') && LifecycleSound(f');
  }

  lemma PrepareKeepsSound(f: EventFile, actor: Actor)
    requires Sound(f)
    ensures Sound(After(f, PrepareSettlement(f, actor)))
  {
    var o := PrepareSettlement(f, actor);
    if o.Accepted? {
      PreparedIsSound(f, o.state.settlement.value);
      SettlementKeepsSound(f, o.state.settlement.value);
    }
  }

  /** Moving a settlement to another unsealed status keeps the record sound, as long as the status
      fits the direction of the settlement. */
  lemma StatusMoveKeepsSound(f: EventFile, s': Settlement)
    requires Sound(f) && f.settlement.Some? && !f.status.Sealed()
    requires s' == f.settlement.value.(status := s'.status, auditedBy := s'.auditedBy)
    requires Directed(s', f.payments)
    ensures Sound(f.(settlement := Some(s')))
  {
    SettlementKeepsSound(f, s');
  }

  lemma SubmitKeepsSound(f: EventFile, actor: Actor, found: bool)
    requires Sound(f)
    ensures Sound(After(f, SubmitSettlement(f, actor, found)))
  {
    var o := SubmitSettlement(f, actor, found);
    if o.Accepted? {
      StatusMoveKeepsSound(f, o.state.settlement.value);
    }
  }

  lemma AuditKeepsSound(f: EventFile, actor: Actor, decision: Decision, found: bool)
    requires Sound(f)
    ensures Sound(After(f, AuditSettlement(f, actor, decision, found)))
  {
    var o := AuditSettlement(f, actor, decision, found);
    if o.Accepted? {
      StatusMoveKeepsSound(f, o.state.settlement.value);
    }
  }

  lemma NetCashAfterPayment(advance: int, payments: seq<Payment>, p: Payment)
    ensures NetCash(advance, payments + [p])
         == NetCash(advance, payments) + ReimbursedPart(p) - RefundedPart(p)
  {
    SumOfAppend(payments, p, ReimbursedPart);
    SumOfAppend(payments, p, RefundedPart);
  }

  /** The settlement after a payment of no more than what was due, in its direction. */
  lemma PaidIsSound(f: EventFile, p: Payment, s': Settlement)
    requires Sound(f) && f.settlement.Some?
    requires var s := f.settlement.value;
             && RightWay(s.figures.kind, p.kind) && 0 < p.amount <= Due(s, f.payments)
             && (s.status.PendingReimbursement? || s.status.PendingRefund?)
             && s' == s.(status := if Due(s, f.payments) - p.amount <= 0 then Settled else s.status)
    ensures SettlementSound(s', f.(settlement := Some(s'), payments := f.payments + [p]))
  {
    NetCashAfterPayment(s'.figures.advance, f.payments, p);
    NetCashAfterPayment(0, f.payments, p);
  }

  /** Snapshots keep a prefix of the payments, which a further payment only extends. */
  lemma PaymentKeepsHistory(f: EventFile, p: Payment, s: Settlement)
    requires HistorySound(f)
    ensures HistorySound(f.(settlement := Some(s), payments := f.payments + [p]))
  {
    assert forall r :: RevisionSound(r, f.payments) ==> RevisionSound(r, f.payments + [p]);
  }

  lemma PaymentKeepsSound(f: EventFile, op: SettlementOp)
    requires Sound(f) && op.PayOp?
    ensures Sound(After(f, Apply(f, op)))
  {
    var o := Apply(f, op);
    if o.Accepted? {
      var s', p := o.state.settlement.value, o.state.payments[|f.payments|];
      PaidIsSound(f, p, s');
      PaymentKeepsHistory(f, p, s');
      assert o.state == f.(settlement := Some(s'), payments := f.payments + [p]);
      assert MoneySound(o.state) && LifecycleSound(o.state);
    }
  }

  lemma ReopenKeepsSound(f: EventFile, actor: Actor, reasonGiven: bool)
    requires Sound(f)
    ensures Sound(After(f, ReopenSettlement(f, actor, reasonGiven)))
  {
    var o := ReopenSettlement(f, actor, reasonGiven);
    if o.Accepted? {
      assert SettlementSound(o.state.settlement.value, o.state);
      assert HistorySound(o.state);
    }
  }

  lemma StepKeepsSound(f: EventFile, op: SettlementOp)
    requires Sound(f)
    ensures Sound(After(f, Apply(f, op)))
  {
    match op
    case PrepareOp(actor) => PrepareKeepsSound(f, actor);
    case SubmitOp(actor, found) => SubmitKeepsSound(f, actor, found);
    case AuditOp(actor, decision, found) => AuditKeepsSound(f, actor, decision, found);
    case PayOp(_, _, _, _, _) => PaymentKeepsSound(f, op);
    case ReopenOp(actor, reason) => ReopenKeepsSound(f, actor, reason);
    case RecordIncomeOp(_, _, _, _, _) => IncomeStepKeepsSound(f, op);
    case VerifyIncomeOp(_, _) => IncomeStepKeepsSound(f, op);
    case RejectIncomeOp(_, _, _) => IncomeStepKeepsSound(f, op);
    case _ => AdvanceStepKeepsSound(f, op);
  }

  /** The settlement service touches the advance, the incomes and the settlement, nothing else. */
  lemma StepFrame(f: EventFile, op: SettlementOp)
    ensures var f' := After(f, Apply(f, op));
            f' == f.(advance := f'.advance, incomes := f'.incomes, settlement := f'.settlement,
                     payments := f'.payments, revisions := f'.revisions)
  {
  }

  /** Only preparation computes figures: every other step leaves the stored ones alone. */
  lemma FiguresStay(f: EventFile, op: SettlementOp)
    requires !op.PrepareOp? && f.settlement.Some?
    ensures var f' := After(f, Apply(f, op));
            && f'.settlement.Some?
            && f'.settlement.value.figures == f.settlement.value.figures
            && f'.settlement.value.sanction == f.settlement.value.sanction
            && f'.settlement.value.fingerprint == f.settlement.value.fingerprint
  {
  }

  lemma DisbursedStays(f: EventFile, op: SettlementOp)
    requires !op.DisburseAdvanceOp?
    ensures DisbursedPart(After(f, Apply(f, op)).advance) == DisbursedPart(f.advance)
  {
  }

  /** The status of a settlement in payment changes only by payment or reopening. */
  lemma PaymentStatusStays(f: EventFile, op: SettlementOp)
    requires f.settlement.Some? && InPayment(f.settlement.value)
    requires !op.PayOp? && !op.ReopenOp?
    ensures var f' := After(f, Apply(f, op));
            f'.settlement == f.settlement && f'.payments == f.payments && f'.revisions == f.revisions
  {
  }

  ghost predicate InPayment(s: Settlement) {
    s.status.PendingReimbursement? || s.status.PendingRefund? || s.status.Settled?
  }

  /** Payments and revisions are only ever added to. */
  lemma StepExtends(f: EventFile, op: SettlementOp)
    ensures var f' := After(f, Apply(f, op));
            f.payments <= f'.payments && f.revisions <= f'.revisions && f'.closureRevisions == f.closureRevisions
  {
  }
}
