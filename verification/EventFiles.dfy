/** The record of one confirmed event: its status, report, ledgers, settlement, payments,
    closure and the two revision histories. */
module EventFiles {
  import opened Common
  import opened Ledger
  import opened Fingerprint

  datatype EventStatus = Scheduled | InProgress | Completed | ClosureRequested | Closed | Cancelled | Archived {
    /** Delivery has taken place. */
    predicate Concluded() { Completed? || ClosureRequested? || Closed? || Archived? }

    predicate Sealed() { Closed? || Archived? }
  }

  datatype ReportStatus = ReportSubmitted | RevisionRequired | Certified

  datatype Report = Report(revision: nat, submittedBy: nat, status: ReportStatus, certifiedBy: Option<nat>)

  /** The figures of the approved proposal version that the event was created from. */
  datatype Sanction = Sanction(version: nat, grant: int, expenditure: int, income: int)

  datatype SettlementKind = ReimbursementDue | RefundDue | Balanced

  datatype SettlementStatus =
    | Drafted
    | UnderAudit
    | SettlementQueried
    | PendingReimbursement
    | PendingRefund
    | Settled
    | Reopened

  /** The computed part of a settlement. */
  datatype Figures = Figures(
    claimed: int,
    verified: int,
    disallowed: int,
    income: int,
    deficit: int,
    payout: int,
    advance: int,
    balance: int,
    reimbursement: int,
    refund: int,
    kind: SettlementKind
  )

  datatype Settlement = Settlement(
    sanction: Sanction,
    figures: Figures,
    status: SettlementStatus,
    preparedBy: nat,
    auditedBy: Option<nat>,
    fingerprint: Canonical
  )

  datatype PaymentKind = ReimbursementDisbursement | AdvanceRefundReceipt

  datatype Payment = Payment(kind: PaymentKind, amount: int, proof: nat, recordedBy: nat)

  /** What a reopening keeps of the settlement it reopens. */
  datatype SettlementRevision = SettlementRevision(
    number: nat,
    settlement: Settlement,
    payments: seq<Payment>,
    reopenedBy: nat
  )

  /** The certified figures; the SHA-256 of the manifest is taken as injective. */
  datatype Manifest = Manifest(
    certifiedBy: nat,
    grant: int,
    payout: int,
    balance: int,
    verified: int,
    income: int
  )

  datatype Closure = Closure(certifiedBy: nat, manifest: Manifest)

  datatype ClosureRevision = ClosureRevision(number: nat, closure: Closure, settlement: Settlement, reopenedBy: nat)

  datatype EventFile = EventFile(
    startTime: int,
    sanction: Option<Sanction>,
    status: EventStatus,
    report: Option<Report>,
    expenses: seq<Expense>,
    incomes: seq<Income>,
    advance: Option<Advance>,
    settlement: Option<Settlement>,
    payments: seq<Payment>,
    revisions: seq<SettlementRevision>,
    closure: Option<Closure>,
    closureRevisions: seq<ClosureRevision>
  )

  /** A confirmed event as the final approval creates it. */
  function Opened(startTime: int, sanction: Option<Sanction>): EventFile {
    EventFile(startTime, sanction, Scheduled, None, [], [], None, None, [], [], None, [])
  }

  // ---------- cash ----------

  function ReimbursedPart(p: Payment): int { if p.kind.ReimbursementDisbursement? then p.amount else 0 }

  function RefundedPart(p: Payment): int { if p.kind.AdvanceRefundReceipt? then p.amount else 0 }

  /** An advance, plus every reimbursement, minus every refund. Given the advance stored with a
      settlement it is the cash the settlement knows of; a later disbursal is not in it. */
  function NetCash(advance: int, payments: seq<Payment>): int {
    advance + Sum(payments, ReimbursedPart) - Sum(payments, RefundedPart)
  }

  /** What is still to be paid, in the direction the settlement was given. */
  function Due(s: Settlement, payments: seq<Payment>): int {
    match s.figures.kind
    case ReimbursementDue => s.figures.payout - NetCash(s.figures.advance, payments)
    case RefundDue => NetCash(s.figures.advance, payments) - s.figures.payout
    case Balanced => 0
  }

  predicate ReportCertified(f: EventFile) { f.report.Some? && f.report.value.status.Certified? }

  // ---------- what every reachable record satisfies ----------

  /** The entitlement formulas, read off the stored figures. */
  ghost predicate FiguresSound(g: Figures, grant: int) {
    && 0 <= g.verified && 0 <= g.income && 0 <= g.advance
    && g.deficit == Max(0, g.verified - g.income)
    && g.payout == Min(grant, g.deficit)
    && g.claimed == g.verified + g.disallowed && 0 <= g.disallowed
    && BalanceSound(g)
  }

  /** The stored balance is split into what the institution owes and what the club owes, at most
      one of them, and the type says which. */
  ghost predicate BalanceSound(g: Figures) {
    match g.kind
    case ReimbursementDue => 0 < g.balance == g.reimbursement && g.refund == 0
    case RefundDue => g.balance < 0 && g.refund == -g.balance && g.reimbursement == 0
    case Balanced => g.balance == g.reimbursement == g.refund == 0
  }

  /** The direction of a settlement is right even when its balance is left over from an
      earlier round: what is due never exceeds it, and a draft's balance is what is due. */
  ghost predicate Directed(s: Settlement, payments: seq<Payment>) {
    var net := NetCash(s.figures.advance, payments);
    && (s.figures.kind.ReimbursementDue? ==> net <= s.figures.payout)
    && (s.figures.kind.RefundDue? ==> net >= s.figures.payout)
    && (s.figures.kind.Balanced? ==> net == s.figures.payout)
    && Due(s, payments) <= s.figures.reimbursement + s.figures.refund
    && (s.status.Drafted? ==> net + s.figures.balance == s.figures.payout)
    && (s.status.PendingReimbursement? ==> s.figures.kind.ReimbursementDue?)
    && (s.status.PendingRefund? ==> s.figures.kind.RefundDue?)
    && (s.status.Settled? ==> net == s.figures.payout)
  }

  /** The stored aggregates are the ones the stored fingerprint was taken with. */
  ghost predicate Fingerprinted(s: Settlement) {
    && s.fingerprint.version == s.sanction.version
    && s.fingerprint.grant == s.sanction.grant
    && s.figures.verified == Sum(s.fingerprint.expenses, EntryVerified)
    && s.figures.income == Sum(s.fingerprint.incomes, EntryIncome)
    && s.figures.advance == EntryDisbursed(s.fingerprint.advance)
  }

  ghost predicate PaymentsSound(payments: seq<Payment>) { forall p :: p in payments ==> 0 < p.amount }

  ghost predicate SettlementSound(s: Settlement, f: EventFile) {
    && f.sanction == Some(s.sanction)
    && FiguresSound(s.figures, s.sanction.grant)
    && Directed(s, f.payments)
    && Fingerprinted(s)
    && (s.figures.advance == 0 || s.figures.advance == DisbursedPart(f.advance))
    && 0 <= NetCash(s.figures.advance, f.payments)
    && NetCash(0, f.payments) <= s.sanction.grant
  }

  ghost predicate MoneySound(f: EventFile) {
    && PaymentsSound(f.payments)
    && (f.settlement.None? ==> f.payments == [] && f.revisions == [])
    && (f.settlement.Some? ==> SettlementSound(f.settlement.value, f))
  }

  /** A snapshot is itself paid up, and later payments only extend its list. */
  ghost predicate RevisionSound(r: SettlementRevision, payments: seq<Payment>) {
    && r.settlement.status.Settled?
    && r.payments <= payments
    && NetCash(r.settlement.figures.advance, r.payments) == r.settlement.figures.payout
  }

  ghost predicate HistorySound(f: EventFile) {
    && (forall i :: 0 <= i < |f.revisions| ==> f.revisions[i].number == i + 1)
    && (forall i :: 0 <= i < |f.revisions| ==> RevisionSound(f.revisions[i], f.payments))
    && (forall i :: 0 <= i < |f.closureRevisions| ==> f.closureRevisions[i].number == i + 1)
    && (forall i :: 0 <= i < |f.closureRevisions| ==> f.closureRevisions[i].settlement.status.Settled?)
    && |f.closureRevisions| <= |f.revisions|
    && (f.closure.None? ==> f.closureRevisions == [])
  }

  /** What a closure certificate attests, and what keeps the unguarded operations disabled. */
  ghost predicate Certifiable(f: EventFile) {
    && ReportCertified(f)
    && !AnyUnresolved(f.expenses)
    && !AnyRecorded(f.incomes)
    && !AdvancePending(f.advance)
    && f.settlement.Some? && f.settlement.value.status.Settled?
  }

  /** A report is never certified by the person who submitted it. */
  ghost predicate ReportSound(r: Report) {
    && 1 <= r.revision
    && (r.status.Certified? <==> r.certifiedBy.Some?)
    && r.certifiedBy != Some(r.submittedBy)
  }

  ghost predicate LifecycleSound(f: EventFile) {
    && (f.report.Some? ==> ReportSound(f.report.value))
    && (f.status.Concluded() <==> f.report.Some?)
    && (f.expenses != [] ==> f.status.Concluded())
    && (f.settlement.Some? ==> ReportCertified(f))
    && (f.status.Cancelled? ==> !AdvancePending(f.advance))
    && (f.status.Sealed() ==> Certifiable(f) && f.closure.Some?)
  }

  ghost predicate AdvanceSound(a: Option<Advance>, sanction: Option<Sanction>) {
    && (a.Some? ==> a.value.Sound(if sanction.Some? then sanction.value.grant else 0))
  }

  ghost predicate Sound(f: EventFile) {
    && (f.sanction.Some? ==> 0 <= f.sanction.value.grant)
    && ExpensesSound(f.expenses)
    && IncomesSound(f.incomes)
    && AdvanceSound(f.advance, f.sanction)
    && MoneySound(f)
    && HistorySound(f)
    && LifecycleSound(f)
  }
}
