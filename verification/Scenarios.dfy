/** Concrete runs from a fresh event, with a grant of 100, that reach the states the conditions
    of the other modules are about. */
module Scenarios {
  import opened Common
  import opened Ledger
  import opened Fingerprint
  import opened EventFiles
  import opened SettlementRules
  import opened CloseoutRules
  import opened EventRuns
  import opened EventSafety
  import opened StoredFigures
  import X = ExecutionRules
  import E = ExpenseRules

  function Secretary(): Actor { Actor(1, ClubSecretary, true, false) }

  function Advisor(): Actor { Actor(2, FacultyAdvisor, false, true) }

  function Treasurer(): Actor { Actor(3, FinanceOfficer, false, false) }

  function Dean(): Actor { Actor(4, DeanStudentAffairs, false, false) }

  function Start(): EventFile { Opened(0, Some(Sanction(1, 100, 100, 0))) }

  /** A run so far and the state it reaches. */
  datatype Play = Play(ops: seq<EventOp>, f: EventFile) {
    ghost predicate Valid() { f == Run(Start(), ops) }
  }

  lemma Next(p: Play, op: EventOp) returns (q: Play)
    requires p.Valid()
    ensures q.Valid() && q.f == Step(p.f, op)
  {
    q := Play(p.ops + [op], Step(p.f, op));
    assert q.ops[..|p.ops|] == p.ops;
  }

  lemma Deliver() returns (p: Play)
    ensures p.Valid() && p.f == Start().(status := Completed, report := Some(Report(1, 1, Certified, Some(2))))
  {
    p := Next(Play([], Start()), ExecutionStep(X.CompleteOp(Secretary())));
    p := Next(p, ExecutionStep(X.CertifyReportOp(Advisor())));
  }

  function Bill(status: ExpenseStatus, verified: Option<int>): Expense {
    Expense(5, Venue, "v", None, 0, 8, 100, verified, status, 1, true)
  }

  lemma ClaimOneHundred(p: Play) returns (q: Play)
    requires p.Valid() && p.f.status.Completed? && p.f.expenses == []
    ensures q.Valid() && q.f == p.f.(expenses := [Bill(Draft, None)])
  {
    var claim := E.Claim(Venue, "v", None, 0, 100, Some(Document(8, ExpenseInvoice, true)));
    q := Next(p, ExpenseStep(E.CreateExpenseOp(Secretary(), 5, claim), []));
  }

  lemma SubmitTheClaim(p: Play) returns (q: Play)
    requires p.Valid() && p.f.status.Completed? && p.f.expenses == [Bill(Draft, None)]
    ensures q.Valid() && q.f == p.f.(expenses := [Bill(Submitted, None)])
  {
    assert Bill(Draft, None) in p.f.expenses && E.Selected(Bill(Draft, None), []);
    q := Next(p, ExpenseStep(E.SubmitExpensesOp(Secretary(), []), []));
    assert q.f.expenses == [Bill(Submitted, None)];
  }

  lemma VerifyTheClaim(p: Play) returns (q: Play)
    requires p.Valid() && p.f.status.Completed? && ReportCertified(p.f) && p.f.expenses == [Bill(Submitted, None)]
    ensures q.Valid() && q.f == p.f.(expenses := [Bill(Verified, Some(100))])
  {
    q := Next(p, ExpenseStep(E.RuleOp(Treasurer(), 5, E.VerifyInFull), []));
    assert q.f.expenses == [Bill(Verified, Some(100))];
  }

  /** The one verified claim of 100, and nothing undecided. */
  ghost predicate Claimed(f: EventFile) {
    && f.sanction == Start().sanction && f.status.Completed? && ReportCertified(f)
    && f.expenses == [Bill(Verified, Some(100))] && f.incomes == []
  }

  /** The settlement was prepared from the ledgers as they are. */
  ghost predicate Prepared(f: EventFile) {
    && f.settlement.Some?
    && var s := f.settlement.value;
       && s.sanction == Start().sanction.value && s.fingerprint == LiveFingerprint(f, s.sanction)
       && s.figures.verified == Sum(f.expenses, VerifiedPart) && s.figures.income == Sum(f.incomes, IncomePart)
       && s.figures.advance == DisbursedPart(f.advance)
  }

  lemma PrepareIt(p: Play) returns (q: Play)
    requires p.Valid() && Claimed(p.f) && !AdvancePending(p.f.advance)
    requires p.f.settlement.None? || p.f.settlement.value.status.Reopened?
    ensures q.Valid() && q.f.settlement.Some? && q.f == p.f.(settlement := q.f.settlement)
    ensures q.f.settlement.value.status.Drafted? && q.f.settlement.value.sanction == Start().sanction.value
    ensures q.f.settlement.value.figures == LiveFigures(p.f, 100) && q.f.settlement.value.figures.payout == 100
    ensures q.f.settlement.value.figures.verified == 100
    ensures Prepared(q.f)
  {
    q := Next(p, MoneyStep(PrepareOp(Secretary())));
    assert Sum(p.f.expenses, VerifiedPart) == 100;
  }

  lemma ApproveIt(p: Play) returns (q: Play)
    requires p.Valid() && Claimed(p.f) && !AdvancePending(p.f.advance)
    requires Prepared(p.f) && p.f.settlement.value.status.Drafted?
    requires p.f.settlement.value.figures.kind.ReimbursementDue?
    ensures q.Valid() && q.f.settlement.Some? && q.f == p.f.(settlement := q.f.settlement)
    ensures q.f.settlement.value.status.PendingReimbursement? && Prepared(q.f)
    ensures q.f.settlement.value.figures == p.f.settlement.value.figures
  {
    q := Next(p, MoneyStep(SubmitOp(Secretary(), true)));
    q := Next(q, MoneyStep(AuditOp(Treasurer(), Approve, true)));
  }

  lemma DisburseLate(p: Play) returns (q: Play)
    requires p.Valid() && Claimed(p.f) && p.f.advance == None
    requires p.f.settlement.Some? && p.f.settlement.value.status.PendingReimbursement?
    ensures q.Valid() && q.f == p.f.(advance := Some(Advance(100, Some(100), 100, Disbursed, 1)))
  {
    q := Next(p, MoneyStep(RequestAdvanceOp(Secretary(), 100)));
    q := Next(q, MoneyStep(ApproveAdvanceOp(Treasurer(), 100)));
    q := Next(q, MoneyStep(DisburseAdvanceOp(Treasurer(), 100, true)));
  }

  /** The one payment of these runs. */
  const PAID: seq<Payment> := [Payment(ReimbursementDisbursement, 100, 9, 3)]

  lemma PayIt(p: Play) returns (q: Play)
    requires p.Valid() && Claimed(p.f) && p.f.payments == []
    requires p.f.settlement.Some? && p.f.settlement.value.status.PendingReimbursement?
    requires p.f.settlement.value.figures.kind.ReimbursementDue?
    requires p.f.settlement.value.figures.payout == 100 && p.f.settlement.value.figures.advance == 0
    ensures q.Valid()
    ensures q.f == p.f.(settlement := Some(p.f.settlement.value.(status := Settled)), payments := PAID)
  {
    var proof := Some(Document(9, PaymentProof, true));
    q := Next(p, MoneyStep(PayOp(Treasurer(), ReimbursementDisbursement, 100, true, proof)));
  }

  lemma ReopenIt(p: Play) returns (q: Play)
    requires p.Valid() && p.f.status.Completed?
    requires p.f.settlement.Some? && p.f.settlement.value.status.Settled?
    ensures q.Valid()
    ensures q.f == p.f.(settlement := Some(p.f.settlement.value.(status := Reopened)), revisions := q.f.revisions)
  {
    q := Next(p, MoneyStep(ReopenOp(Treasurer(), true)));
  }

  /** Closing asks for nothing but what the blocker list shows. */
  lemma CloseIt(p: Play) returns (q: Play)
    requires p.Valid() && p.f.status.Completed? && Certifiable(p.f)
    ensures q.Valid() && q.f.status.Closed? && q.f == p.f.(status := Closed, closure := q.f.closure)
  {
    OpenedRunIsSound(0, Some(Sanction(1, 100, 100, 0)), p.ops);
    EligibleMeans(p.f, NoBooking, 0);
    q := Next(p, CloseoutStep(RequestCloseoutOp(Secretary(), NoBooking, 0)));
    EligibleMeans(q.f, NoBooking, 0);
    q := Next(q, CloseoutStep(CertifyCloseoutOp(Dean(), false, true, NoBooking, 0)));
  }

  /** A delivered event with one verified claim of 100. */
  lemma ClaimAndVerify() returns (p: Play)
    ensures p.Valid() && Claimed(p.f) && p.f == Start().(
              status := Completed, report := Some(Report(1, 1, Certified, Some(2))),
              expenses := [Bill(Verified, Some(100))])
  {
    p := Deliver();
    p := ClaimOneHundred(p);
    p := SubmitTheClaim(p);
    p := VerifyTheClaim(p);
  }

  /** With a grant of 100 the club ends up with 200: the reimbursement of the first round, and
      the late advance that only the second preparation sees. */
  lemma NetCashCanExceedGrant() returns (p: Play)
    ensures p.Valid() && p.f.settlement.Some?
    ensures p.f.settlement.value.sanction.grant == 100
    ensures NetCash(p.f.settlement.value.figures.advance, p.f.payments) == 200
  {
    p := ClaimAndVerify();
    p := PrepareIt(p);
    p := ApproveIt(p);
    p := DisburseLate(p);
    p := PayIt(p);
    p := ReopenIt(p);
    p := PrepareIt(p);
    PaidCash(100);
  }

  lemma PaidCash(advance: int)
    ensures NetCash(advance, PAID) == advance + 100
  {
    assert Sum(PAID, ReimbursedPart) == 100 && Sum(PAID, RefundedPart) == 0;
  }

  lemma IsUpToDate(f: EventFile)
    requires Claimed(f) && Prepared(f) && !AdvancePending(f.advance)
    ensures Staleness(f, f.settlement.value, true).None?
  {
  }

  lemma ReopenSubmitApprove(p: Play) returns (q: Play)
    requires p.Valid()
    ensures q.Valid()
    ensures q.f == ApprovedBy(SubmittedBy(ReopenedBy(p.f, Treasurer()), Secretary(), true), Treasurer(), true)
  {
    q := Next(p, MoneyStep(ReopenOp(Treasurer(), true)));
    q := Next(q, MoneyStep(SubmitOp(Secretary(), true)));
    q := Next(q, MoneyStep(AuditOp(Treasurer(), Approve, true)));
  }

  lemma ResubmitIt(p: Play) returns (q: Play)
    requires p.Valid() && Claimed(p.f) && Prepared(p.f) && !AdvancePending(p.f.advance)
    requires p.f.settlement.value.status.Settled? && !p.f.settlement.value.figures.kind.Balanced?
    ensures q.Valid() && Stranded(q.f)
  {
    OpenedRunIsSound(0, Some(Sanction(1, 100, 100, 0)), p.ops);
    IsUpToDate(p.f);
    ResubmittedAsIs(p.f, Treasurer(), Secretary(), Treasurer(), true);
    q := ReopenSubmitApprove(p);
  }

  /** Paid, reopened, submitted as it is and approved again: a settlement pending with nothing due. */
  lemma SettlementCanBeStranded() returns (p: Play)
    ensures p.Valid() && Stranded(p.f)
  {
    p := ClaimAndVerify();
    p := PrepareIt(p);
    p := ApproveIt(p);
    p := PayIt(p);
    p := ResubmitIt(p);
  }

  /** An advance disbursed after preparation is in no figure the closure looks at: the event is
      closed with a payout of 100 while the club holds 200. */
  lemma ClosedWithSurplusCash() returns (p: Play)
    ensures p.Valid() && p.f.status.Closed? && p.f.settlement.Some?
    ensures p.f.settlement.value.figures.payout == 100 && LiveCash(p.f) == 200
  {
    p := ClaimAndVerify();
    p := PrepareIt(p);
    p := ApproveIt(p);
    p := DisburseLate(p);
    p := PayIt(p);
    p := CloseIt(p);
    PaidCash(100);
  }

  function LateBill(status: ExpenseStatus, verified: Option<int>): Expense {
    Expense(6, Venue, "v", None, 0, 8, 100, verified, status, 1, true)
  }

  /** A second claim, submitted whatever has become of the settlement. */
  lemma SubmitAnother(p: Play) returns (q: Play)
    requires p.Valid() && Claimed(p.f)
    ensures q.Valid() && q.f == p.f.(expenses := [Bill(Verified, Some(100)), LateBill(Submitted, None)])
  {
    var claim := E.Claim(Venue, "v", None, 0, 100, Some(Document(8, ExpenseInvoice, true)));
    q := Next(p, ExpenseStep(E.CreateExpenseOp(Secretary(), 6, claim), []));
    assert q.f.expenses == [Bill(Verified, Some(100)), LateBill(Draft, None)];
    assert q.f.expenses[1] in q.f.expenses && E.Selected(q.f.expenses[1], []);
    q := Next(q, ExpenseStep(E.SubmitExpensesOp(Secretary(), []), []));
    assert q.f.expenses == [Bill(Verified, Some(100)), LateBill(Submitted, None)];
  }

  lemma RuleOnAnother(p: Play, ruling: E.Ruling) returns (q: Play)
    requires p.Valid() && p.f.status.Completed? && ReportCertified(p.f)
    requires p.f.expenses == [Bill(Verified, Some(100)), LateBill(Submitted, None)]
    requires !ruling.VerifyPart?
    ensures q.Valid()
    ensures q.f == p.f.(expenses := [Bill(Verified, Some(100)), E.Ruled(LateBill(Submitted, None), ruling)])
  {
    q := Next(p, ExpenseStep(E.RuleOp(Treasurer(), 6, ruling), []));
  }

  lemma ClaimAgain(p: Play) returns (q: Play)
    requires p.Valid() && Claimed(p.f)
    ensures q.Valid() && q.f == p.f.(expenses := [Bill(Verified, Some(100)), LateBill(Verified, Some(100))])
  {
    q := SubmitAnother(p);
    q := RuleOnAnother(q, E.VerifyInFull);
  }

  lemma LateTotal(late: Expense)
    ensures Sum([Bill(Verified, Some(100)), late], VerifiedPart) == 100 + VerifiedPart(late)
  {
    assert [Bill(Verified, Some(100)), late] == [Bill(Verified, Some(100))] + [late];
    SumOfAppend([Bill(Verified, Some(100))], late, VerifiedPart);
  }

  /** A claim verified while the settlement is still a draft overtakes it. */
  lemma DraftCanBeOvertaken() returns (p: Play)
    ensures p.Valid() && Overtaken(p.f) && p.f.settlement.value.status.Drafted?
  {
    p := ClaimAndVerify();
    p := PrepareIt(p);
    p := ClaimAgain(p);
    LateTotal(LateBill(Verified, Some(100)));
    assert Behind(p.f, Claims);
  }

  /** A claim made and disallowed after preparation leaves every aggregate as it was: only the
      fingerprint tells that the sources are no longer those the settlement was prepared from. */
  lemma AggregatesMissDisallowedClaim() returns (p: Play)
    ensures p.Valid() && p.f.settlement.Some?
    ensures Staleness(p.f, p.f.settlement.value, false).None?
    ensures Staleness(p.f, p.f.settlement.value, true) == Some(StaleData)
  {
    p := ClaimAndVerify();
    p := PrepareIt(p);
    p := SubmitAnother(p);
    p := RuleOnAnother(p, E.DisallowClaim);
    DisallowedIsSeen(p.f);
  }

  lemma DisallowedIsSeen(f: EventFile)
    requires Prepared(f.(expenses := [Bill(Verified, Some(100))]))
    requires f.expenses == [Bill(Verified, Some(100)), LateBill(Disallowed, Some(0))]
    requires f.sanction == Start().sanction && f.incomes == [] && f.advance == None
    ensures Staleness(f, f.settlement.value, false).None?
    ensures Staleness(f, f.settlement.value, true) == Some(StaleData)
  {
    LateTotal(LateBill(Disallowed, Some(0)));
    var before := [Bill(Verified, Some(100))];
    SameSize(Sorted(before, ExpenseId), before);
    SameSize(Sorted(f.expenses, ExpenseId), f.expenses);
    assert |f.settlement.value.fingerprint.expenses| == 1;
    assert |LiveFingerprint(f, Start().sanction.value).expenses| == 2;
  }

  /** A claim verified after SETTLED is closed over as well: the certified figures say 100, the
      ledger 200. */
  lemma ClosedWithStaleFigures() returns (p: Play)
    ensures p.Valid() && p.f.status.Closed? && p.f.settlement.Some?
    ensures p.f.settlement.value.figures.verified == 100 && Sum(p.f.expenses, VerifiedPart) == 200
    ensures !Live(p.f.settlement.value, p.f)
  {
    p := ClaimAndVerify();
    p := PrepareIt(p);
    p := ApproveIt(p);
    p := PayIt(p);
    p := ClaimAgain(p);
    p := CloseIt(p);
    LateTotal(LateBill(Verified, Some(100)));
  }
}
