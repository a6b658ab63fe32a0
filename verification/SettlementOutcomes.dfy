/** What a caller of the settlement service can rely on: exactly when each operation goes through,
    what the record then says, field by field, and what each refusal attests. */
module SettlementOutcomes {
  import opened Common
  import opened Ledger
  import opened Fingerprint
  import opened EventFiles
  import opened SettlementRules

  ghost predicate ByOfficer(actor: Actor) { actor.role == FinanceOfficer }

  ghost predicate BySecretary(actor: Actor) { actor.secretary && actor.role != SystemAdmin }

  ghost predicate Shut(f: EventFile) { f.status == Closed || f.status == Archived }

  ghost predicate SettledOrCancelled(f: EventFile) {
    f.status == Cancelled || (f.settlement.Some? && f.settlement.value.status == Settled)
  }

  // ---------- the cash advance ----------

  lemma AdvanceIsRequestedWhen(f: EventFile, actor: Actor, amount: int)
    ensures var o := RequestAdvance(f, actor, amount);
            && (o.Accepted? <==> BySecretary(actor) && !Shut(f) && !SettledOrCancelled(f)
                                 && f.advance == None && 0 < amount)
            && (o.Accepted? ==> o.state == f.(advance := Some(Advance(amount, None, 0, Requested, actor.id))))
            && (o.Refused? ==>
                  match o.error
                  case Forbidden => !BySecretary(actor)
                  case WorkflowState => SettledOrCancelled(f)
                  case Conflict => Shut(f) || f.advance.Some?
                  case BadRequest => amount <= 0
                  case _ => false)
  {
  }

  lemma AdvanceIsApprovedWhen(f: EventFile, actor: Actor, amount: int)
    ensures var o := ApproveAdvance(f, actor, amount);
            && (o.Accepted? <==> ByOfficer(actor) && !Shut(f)
                                 && f.advance.Some? && f.advance.value.status == Requested
                                 && f.sanction.Some? && 0 < amount <= f.sanction.value.grant)
            && (o.Accepted? ==>
                  var a := f.advance.value;
                  o.state
                  == f.(advance := Some(Advance(a.requested, Some(amount), a.disbursed, Approved, a.recipient))))
            && (o.Refused? ==>
                  match o.error
                  case Forbidden => !ByOfficer(actor)
                  case NotFound => f.advance == None
                  case Conflict => Shut(f)
                  case InvalidTransition => f.advance.Some? && f.advance.value.status != Requested
                  case BadRequest => amount <= 0
                  case BusinessRule => f.sanction == None || amount > f.sanction.value.grant
                  case _ => false)
  {
  }

  lemma AdvanceIsRejectedWhen(f: EventFile, actor: Actor, reasonGiven: bool)
    ensures var o := RejectAdvance(f, actor, reasonGiven);
            && (o.Accepted? <==> ByOfficer(actor) && reasonGiven
                                 && f.advance.Some? && f.advance.value.status == Requested)
            && (o.Accepted? ==>
                  var a := f.advance.value;
                  o.state == f.(advance := Some(Advance(a.requested, a.approved, a.disbursed, Rejected, a.recipient))))
            && (o.Refused? ==>
                  match o.error
                  case Forbidden => !ByOfficer(actor)
                  case NotFound => f.advance == None
                  case InvalidTransition => f.advance.Some? && f.advance.value.status != Requested
                  case BadRequest => !reasonGiven
                  case _ => false)
  {
  }

  lemma AdvanceIsDisbursedWhen(f: EventFile, actor: Actor, amount: int, referenceGiven: bool)
    ensures var o := DisburseAdvance(f, actor, amount, referenceGiven);
            && (o.Accepted? <==> ByOfficer(actor) && referenceGiven && 0 < amount
                                 && f.advance.Some? && f.advance.value.status == Approved
                                 && f.advance.value.approved == Some(amount))
            && (o.Accepted? ==>
                  var a := f.advance.value;
                  o.state == f.(advance := Some(Advance(a.requested, Some(amount), amount, Disbursed, a.recipient))))
            && (o.Refused? ==>
                  match o.error
                  case Forbidden => !ByOfficer(actor)
                  case NotFound => f.advance == None
                  case InvalidTransition => f.advance.Some? && f.advance.value.status != Approved
                  case BadRequest => !referenceGiven || amount <= 0
                  case BusinessRule => f.advance.Some? && f.advance.value.approved != Some(amount)
                  case _ => false)
  {
  }

  /** Asked for, approved and paid out: any amount within the grant reaches the club, and no other
      than the approved one does. */
  lemma ApprovedAdvanceArrives(f: EventFile, secretary: Actor, officer: Actor, asked: int, approved: int, paid: int)
    requires BySecretary(secretary) && ByOfficer(officer) && !Shut(f) && !SettledOrCancelled(f)
    requires f.advance == None && 0 < asked && f.sanction.Some? && 0 < approved <= f.sanction.value.grant
    ensures var f1 := After(f, RequestAdvance(f, secretary, asked));
            var f2 := After(f1, ApproveAdvance(f1, officer, approved));
            var o := DisburseAdvance(f2, officer, paid, true);
            && (o.Accepted? <==> paid == approved)
            && DisbursedPart(After(f2, o).advance) == (if paid == approved then approved else 0)
  {
  }

  // ---------- actual income ----------

  lemma FindsTheRow<T>(rows: seq<T>, id: T -> nat, k: nat)
    requires UniqueIds(rows, id) && k < |rows|
    ensures Find(rows, id, id(rows[k])) == Some(k)
  {
  }

  lemma IncomeIsRecordedWhen(f: EventFile, actor: Actor, id: nat, amount: int, textsGiven: bool,
                             evidence: Option<Document>)
    ensures var o := RecordIncome(f, actor, id, amount, textsGiven, evidence);
            && (o.Accepted? <==> BySecretary(actor) && !Shut(f) && !SettledOrCancelled(f) && 0 < amount && textsGiven
                                 && evidence.Some? && evidence.value.kind == IncomeEvidence && evidence.value.owned
                                 && forall i :: i in f.incomes ==> i.id != id)
            && (o.Accepted? ==> o.state == f.(incomes := f.incomes + [Income(id, amount, Recorded, actor.id, None)]))
            && (o.Refused? ==>
                  match o.error
                  case Forbidden => !BySecretary(actor)
                  case Conflict => Shut(f)
                  case WorkflowState => SettledOrCancelled(f)
                  case NotFound => evidence == None
                  case BadRequest => amount <= 0 || !textsGiven
                                     || (evidence.Some? && evidence.value.kind != IncomeEvidence)
                                     || (evidence.Some? && !evidence.value.owned)
                  case IntegrityViolation => exists i :: i in f.incomes && i.id == id
                  case _ => false)
  {
    var at := Find(f.incomes, IncomeId, id);
    if at.Some? { assert f.incomes[at.value] in f.incomes && f.incomes[at.value].id == id; }
    forall i | i in f.incomes && at.None?
      ensures i.id != id
    {
      var k :| 0 <= k < |f.incomes| && f.incomes[k] == i;
      assert IncomeId(f.incomes[k]) != id;
    }
  }

  /** The k-th income, judged by an officer who did not record it. */
  lemma IncomeIsVerifiedWhen(f: EventFile, actor: Actor, k: nat)
    requires UniqueIds(f.incomes, IncomeId) && k < |f.incomes|
    ensures var i := f.incomes[k];
            var o := VerifyIncome(f, actor, i.id);
            && (o.Accepted? <==> ByOfficer(actor) && !Shut(f) && i.recordedBy != actor.id && i.status == Recorded)
            && (o.Accepted? ==>
                  var i' := Income(i.id, i.amount, IncomeVerified, i.recordedBy, Some(actor.id));
                  o.state == f.(incomes := f.incomes[k := i']))
            && (o.Refused? ==>
                  match o.error
                  case Forbidden => !ByOfficer(actor) || i.recordedBy == actor.id
                  case Conflict => Shut(f)
                  case InvalidTransition => i.status != Recorded
                  case _ => false)
  {
    FindsTheRow(f.incomes, IncomeId, k);
  }

  lemma IncomeIsRejectedWhen(f: EventFile, actor: Actor, k: nat, reasonGiven: bool)
    requires UniqueIds(f.incomes, IncomeId) && k < |f.incomes|
    ensures var i := f.incomes[k];
            var o := RejectIncome(f, actor, i.id, reasonGiven);
            && (o.Accepted? <==> ByOfficer(actor) && i.recordedBy != actor.id && i.status == Recorded && reasonGiven)
            && (o.Accepted? ==>
                  var i' := Income(i.id, i.amount, IncomeRejected, i.recordedBy, Some(actor.id));
                  o.state == f.(incomes := f.incomes[k := i']))
            && (o.Refused? ==>
                  match o.error
                  case Forbidden => !ByOfficer(actor) || i.recordedBy == actor.id
                  case InvalidTransition => i.status != Recorded
                  case BadRequest => !reasonGiven
                  case _ => false)
  {
    FindsTheRow(f.incomes, IncomeId, k);
  }

  /** An unknown income is never judged. */
  lemma UnknownIncomeIsNotFound(f: EventFile, actor: Actor, id: nat, reasonGiven: bool)
    requires ByOfficer(actor) && forall i :: i in f.incomes ==> i.id != id
    ensures VerifyIncome(f, actor, id) == Refused(NotFound) == RejectIncome(f, actor, id, reasonGiven)
  {
    assert Find(f.incomes, IncomeId, id).None?;
  }

  // ---------- preparation ----------

  ghost predicate ClaimOpen(e: Expense) { e.status == Draft || e.status == Submitted || e.status == Queried }

  /** Every claim, every income and the advance are decided. */
  ghost predicate Decided(f: EventFile) {
    && (forall e :: e in f.expenses ==> !ClaimOpen(e))
    && (forall i :: i in f.incomes ==> i.status != Recorded)
    && (f.advance.Some? ==> f.advance.value.status == Disbursed || f.advance.value.status == Rejected)
  }

  ghost predicate Delivered(f: EventFile) {
    f.status == Completed && f.report.Some? && f.report.value.status == Certified
  }

  lemma SettlementIsPreparedWhen(f: EventFile, actor: Actor)
    ensures var o := PrepareSettlement(f, actor);
            && (o.Accepted? <==> BySecretary(actor) && Delivered(f) && Decided(f) && f.sanction.Some?
                                 && (f.settlement.Some? ==> f.settlement.value.status == Reopened))
            && (o.Refused? ==>
                  match o.error
                  case Forbidden => !BySecretary(actor)
                  case Conflict => Shut(f) || (f.settlement.Some? && f.settlement.value.status != Reopened)
                  case WorkflowState => !Delivered(f)
                  case BusinessRule => f.sanction == None || !Decided(f)
                  case _ => false)
  {
    DecidedMeansResolved(f);
  }

  lemma DecidedMeansResolved(f: EventFile)
    ensures Decided(f) <==> SourcesResolved(f)
  {
  }

  function Claim(e: Expense): int { e.claimed }

  /** What a claim loses in the audit. */
  function Lost(e: Expense): int {
    match e.status
    case Disallowed => e.claimed
    case PartiallyVerified =>
      if e.verified.Some? && e.verified.value < e.claimed then e.claimed - e.verified.value else 0
    case _ => 0
  }

  lemma {:induction false} SumOfSame<T>(rows: seq<T>, f: T -> int, g: T -> int)
    requires forall r :: r in rows ==> f(r) == g(r)
    ensures Sum(rows, f) == Sum(rows, g)
  {
    if rows != [] {
      SumOfSame(rows[..|rows| - 1], f, g);
    }
  }

  /** The prepared settlement, figure by figure; everything else on the record stays. */
  lemma PreparedFigures(f: EventFile, actor: Actor)
    requires ExpensesSound(f.expenses) && PrepareSettlement(f, actor).Accepted?
    ensures var f' := PrepareSettlement(f, actor).state;
            && f'.settlement.Some? && f' == f.(settlement := f'.settlement)
            && var s, g := f'.settlement.value, f'.settlement.value.figures;
               var net := DisbursedPart(f.advance) + Sum(f.payments, ReimbursedPart) - Sum(f.payments, RefundedPart);
               && s.status == Drafted && s.preparedBy == actor.id && Some(s.sanction) == f.sanction
               && s.auditedBy == (if f.settlement.Some? then f.settlement.value.auditedBy else None)
               && s.fingerprint == Compute(s.sanction.version, s.sanction.grant, f.expenses, f.incomes, f.advance)
               && g.claimed == Sum(f.expenses, Claim) && g.disallowed == Sum(f.expenses, Lost)
               && g.verified == Sum(f.expenses, VerifiedPart) && g.income == Sum(f.incomes, IncomePart)
               && g.advance == DisbursedPart(f.advance)
               && g.deficit == (if g.verified > g.income then g.verified - g.income else 0)
               && g.payout == (if g.deficit < s.sanction.grant then g.deficit else s.sanction.grant)
               && g.balance == g.payout - net
               && g.reimbursement == (if g.payout > net then g.payout - net else 0)
               && g.refund == (if net > g.payout then net - g.payout else 0)
               && (g.kind == ReimbursementDue <==> g.payout > net) && (g.kind == RefundDue <==> net > g.payout)
  {
    forall e | e in f.expenses
      ensures DisallowedPart(e) == Lost(e)
    {
      assert e.Sound();
    }
    SumOfSame(f.expenses, ClaimedPart, Claim);
    SumOfSame(f.expenses, DisallowedPart, Lost);
  }

  // ---------- submission and audit ----------

  /** What the stale-data check compares, spelled out. */
  ghost predicate MatchesSources(s: Settlement, f: EventFile, found: bool) {
    && f.sanction.Some?
    && s.sanction.version == f.sanction.value.version && s.sanction.grant == f.sanction.value.grant
    && s.figures.verified == Sum(f.expenses, VerifiedPart) && s.figures.income == Sum(f.incomes, IncomePart)
    && s.figures.advance == DisbursedPart(f.advance)
    && (found ==> s.fingerprint
                  == Compute(s.sanction.version, s.sanction.grant, f.expenses, f.incomes, f.advance))
  }

  lemma StaleWhen(f: EventFile, s: Settlement, found: bool)
    ensures var stale := Staleness(f, s, found);
            && (stale == None <==> Decided(f) && MatchesSources(s, f, found))
            && (stale == Some(BusinessRule) <==> f.sanction == None || !Decided(f))
            && (stale == None || stale == Some(BusinessRule) || stale == Some(StaleData))
  {
    DecidedMeansResolved(f);
  }

  lemma SettlementIsSubmittedWhen(f: EventFile, actor: Actor, found: bool)
    ensures var o := SubmitSettlement(f, actor, found);
            && (o.Accepted? <==>
                  && BySecretary(actor) && !Shut(f) && f.settlement.Some?
                  && var s := f.settlement.value;
                     && (s.status == Drafted || s.status == SettlementQueried || s.status == Reopened)
                     && Decided(f) && MatchesSources(s, f, found))
            && (o.Accepted? ==> o.state == f.(settlement := Some(f.settlement.value.(status := UnderAudit))))
            && (o.Refused? ==>
                  match o.error
                  case Forbidden => !BySecretary(actor)
                  case NotFound => f.settlement == None
                  case Conflict => Shut(f)
                  case InvalidTransition => f.settlement.Some? && f.settlement.value.status !in
                                            {Drafted, SettlementQueried, Reopened}
                  case BusinessRule => f.sanction == None || !Decided(f)
                  case StaleData => f.settlement.Some? && !MatchesSources(f.settlement.value, f, found)
                  case _ => false)
  {
    if f.settlement.Some? { StaleWhen(f, f.settlement.value, found); }
  }

  ghost predicate Auditable(f: EventFile, actor: Actor, found: bool) {
    && ByOfficer(actor) && !Shut(f) && f.settlement.Some? && f.settlement.value.status == UnderAudit
    && Decided(f) && MatchesSources(f.settlement.value, f, found)
  }

  /** A query needs a reason and sends the settlement back with nothing but its status changed. */
  lemma SettlementIsQueriedWhen(f: EventFile, actor: Actor, reasonGiven: bool, found: bool)
    ensures var o := AuditSettlement(f, actor, Query(reasonGiven), found);
            && (o.Accepted? <==> Auditable(f, actor, found) && reasonGiven)
            && (o.Accepted? ==> o.state == f.(settlement := Some(f.settlement.value.(status := SettlementQueried))))
  {
    if f.settlement.Some? { StaleWhen(f, f.settlement.value, found); }
  }

  /** An approval sends it on by its stored type. */
  lemma SettlementIsApprovedWhen(f: EventFile, actor: Actor, found: bool)
    ensures var o := AuditSettlement(f, actor, Approve, found);
            && (o.Accepted? <==> Auditable(f, actor, found))
            && (o.Accepted? ==>
                  && o.state.settlement.Some? && o.state == f.(settlement := o.state.settlement)
                  && var s, s' := f.settlement.value, o.state.settlement.value;
                     && s' == s.(status := s'.status, auditedBy := Some(actor.id))
                     && (s.figures.kind == Balanced ==> s'.status == Settled)
                     && (s.figures.kind == ReimbursementDue ==> s'.status == PendingReimbursement)
                     && (s.figures.kind == RefundDue ==> s'.status == PendingRefund))
  {
    if f.settlement.Some? { StaleWhen(f, f.settlement.value, found); }
  }

  lemma AuditRefusalMeans(f: EventFile, actor: Actor, decision: Decision, found: bool)
    requires AuditSettlement(f, actor, decision, found).Refused?
    ensures match AuditSettlement(f, actor, decision, found).error
            case Forbidden => !ByOfficer(actor)
            case BadRequest => decision == Unknown || decision == Query(false)
            case NotFound => f.settlement == None
            case InvalidTransition => f.settlement.Some? && f.settlement.value.status != UnderAudit
            case Conflict => Shut(f)
            case BusinessRule => f.sanction == None || !Decided(f)
            case StaleData => f.settlement.Some? && !MatchesSources(f.settlement.value, f, found)
            case _ => false
  {
    if f.settlement.Some? { StaleWhen(f, f.settlement.value, found); }
  }

  // ---------- payments ----------

  /** What is left to pay on a settlement, either way. */
  ghost function Left(f: EventFile): int
    requires f.settlement.Some?
  {
    var g := f.settlement.value.figures;
    var net := g.advance + Sum(f.payments, ReimbursedPart) - Sum(f.payments, RefundedPart);
    match g.kind
    case ReimbursementDue => g.payout - net
    case RefundDue => net - g.payout
    case Balanced => 0
  }

  ghost predicate Fits(g: Figures, kind: PaymentKind) {
    || (g.kind == ReimbursementDue && kind == ReimbursementDisbursement)
    || (g.kind == RefundDue && kind == AdvanceRefundReceipt)
  }

  ghost predicate Proven(proof: Option<Document>) {
    proof.Some? && proof.value.kind == PaymentProof && proof.value.owned
  }

  /** Any instalment up to what is left is accepted, and recorded as it was made. */
  lemma PaymentIsRecordedWhen(f: EventFile, actor: Actor, kind: PaymentKind, amount: int, referenceGiven: bool,
                              proof: Option<Document>)
    ensures var o := RecordPayment(f, actor, kind, amount, referenceGiven, proof);
            && (o.Accepted? <==>
                  && ByOfficer(actor) && !Shut(f) && f.settlement.Some?
                  && var s := f.settlement.value;
                     && (s.status == PendingReimbursement || s.status == PendingRefund)
                     && Fits(s.figures, kind) && referenceGiven && Proven(proof)
                     && 0 < amount <= Left(f))
            && (o.Accepted? ==>
                  var s := f.settlement.value;
                  o.state == f.(payments := f.payments + [Payment(kind, amount, proof.value.id, actor.id)],
                                settlement := Some(s.(status := if amount == Left(f) then Settled else s.status))))
            && (o.Refused? ==>
                  match o.error
                  case Forbidden => !ByOfficer(actor)
                  case NotFound => f.settlement == None || proof == None
                  case InvalidTransition => f.settlement.Some? && f.settlement.value.status !in
                                            {PendingReimbursement, PendingRefund}
                  case Conflict => Shut(f)
                  case BadRequest => amount <= 0 || !referenceGiven || (proof.Some? && !Proven(proof))
                  case BusinessRule =>
                    f.settlement.Some? && (!Fits(f.settlement.value.figures, kind) || amount > Left(f))
                  case _ => false)
  {
  }

  /** On a sound record awaiting payment, with everything else in order, only the amount decides. */
  lemma InstalmentsAreAccepted(f: EventFile, actor: Actor, amount: int, proof: Document)
    requires Sound(f) && f.settlement.Some? && ByOfficer(actor) && Proven(Some(proof))
    requires f.settlement.value.status == PendingReimbursement || f.settlement.value.status == PendingRefund
    ensures var kind := if f.settlement.value.status == PendingRefund then AdvanceRefundReceipt
                        else ReimbursementDisbursement;
            var o := RecordPayment(f, actor, kind, amount, true, Some(proof));
            && (o.Accepted? <==> 0 < amount <= Left(f))
            && (o.Accepted? ==> o.state.payments == f.payments + [Payment(kind, amount, proof.id, actor.id)])
  {
    var kind := if f.settlement.value.status == PendingRefund then AdvanceRefundReceipt else ReimbursementDisbursement;
    PaymentIsRecordedWhen(f, actor, kind, amount, true, Some(proof));
    assert !f.status.Sealed();
  }

  // ---------- reopening ----------

  lemma SettlementIsReopenedWhen(f: EventFile, actor: Actor, reasonGiven: bool)
    ensures var o := ReopenSettlement(f, actor, reasonGiven);
            var authorised := actor.role in {FinanceOfficer, Principal, DeanStudentAffairs};
            && (o.Accepted? <==> authorised && reasonGiven && !Shut(f)
                                 && f.settlement.Some? && f.settlement.value.status == Settled)
            && (o.Accepted? ==>
                  var s := f.settlement.value;
                  o.state == f.(settlement := Some(s.(status := Reopened)),
                                revisions := f.revisions
                                             + [SettlementRevision(|f.revisions| + 1, s, f.payments, actor.id)]))
            && (o.Refused? ==>
                  match o.error
                  case Forbidden => !authorised
                  case BadRequest => !reasonGiven
                  case NotFound => f.settlement == None
                  case BusinessRule => f.settlement.Some? && f.settlement.value.status != Settled
                  case Conflict => Shut(f)
                  case _ => false)
  {
  }
}
