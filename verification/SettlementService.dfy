/** The settlement service over the mutable rows. Every method is tied to its rule: the reply and
    the record after the call are those the rule gives for the record before it. */
module SettlementService {
  import opened Common
  import opened Ledger
  import opened Fingerprint
  import opened EventFiles
  import opened EventStore
  import R = SettlementRules

  // ---------- cash advance ----------

  method RequestAdvance(db: Store, actor: Actor, amount: int) returns (r: Reply)
    modifies db
    ensures fresh(db.Rows() - old(db.Rows()))
    ensures r == R.RequestAdvance(old(db.File()), actor, amount).Reply()
    ensures db.File() == After(old(db.File()), R.RequestAdvance(old(db.File()), actor, amount))
  {
    if db.status.Sealed() { return Failed(Conflict); }
    if !R.MayActAsSecretary(actor) { return Failed(Forbidden); }
    if db.status.Cancelled? { return Failed(WorkflowState); }
    if db.settlement != null && db.settlement.status.Settled? { return Failed(WorkflowState); }
    if db.advance != null { return Failed(Conflict); }
    if amount <= 0 { return Failed(BadRequest); }
    db.advance := new AdvanceRow(amount, actor.id);
    return Done;
  }

  method ApproveAdvance(db: Store, actor: Actor, amount: int) returns (r: Reply)
    modifies db.advance
    ensures r == R.ApproveAdvance(old(db.File()), actor, amount).Reply()
    ensures db.File() == After(old(db.File()), R.ApproveAdvance(old(db.File()), actor, amount))
  {
    if !actor.role.FinanceOfficer? { return Failed(Forbidden); }
    if db.advance == null { return Failed(NotFound); }
    if db.status.Sealed() { return Failed(Conflict); }
    if !db.advance.status.Requested? { return Failed(InvalidTransition); }
    if amount <= 0 { return Failed(BadRequest); }
    if db.sanction.None? || amount > db.sanction.value.grant { return Failed(BusinessRule); }
    db.advance.approved := Some(amount);
    db.advance.status := Approved;
    return Done;
  }

  method RejectAdvance(db: Store, actor: Actor, reasonGiven: bool) returns (r: Reply)
    modifies db.advance
    ensures r == R.RejectAdvance(old(db.File()), actor, reasonGiven).Reply()
    ensures db.File() == After(old(db.File()), R.RejectAdvance(old(db.File()), actor, reasonGiven))
  {
    if !actor.role.FinanceOfficer? { return Failed(Forbidden); }
    if db.advance == null { return Failed(NotFound); }
    if !db.advance.status.Requested? { return Failed(InvalidTransition); }
    if !reasonGiven { return Failed(BadRequest); }
    db.advance.status := Rejected;
    return Done;
  }

  method DisburseAdvance(db: Store, actor: Actor, amount: int, referenceGiven: bool) returns (r: Reply)
    modifies db.advance
    ensures r == R.DisburseAdvance(old(db.File()), actor, amount, referenceGiven).Reply()
    ensures db.File() == After(old(db.File()), R.DisburseAdvance(old(db.File()), actor, amount, referenceGiven))
  {
    if !actor.role.FinanceOfficer? { return Failed(Forbidden); }
    if db.advance == null { return Failed(NotFound); }
    if !db.advance.status.Approved? { return Failed(InvalidTransition); }
    if !referenceGiven || amount <= 0 { return Failed(BadRequest); }
    if db.advance.approved != Some(amount) { return Failed(BusinessRule); }
    db.advance.disbursed := amount;
    db.advance.status := Disbursed;
    return Done;
  }

  // ---------- actual income ----------

  method RecordIncome(db: Store, actor: Actor, id: nat, amount: int, textsGiven: bool, evidence: Option<Document>)
    returns (r: Reply)
    modifies db
    ensures db.advance == old(db.advance) && db.settlement == old(db.settlement)
    ensures r == R.RecordIncome(old(db.File()), actor, id, amount, textsGiven, evidence).Reply()
    ensures db.File() == After(old(db.File()), R.RecordIncome(old(db.File()), actor, id, amount, textsGiven, evidence))
  {
    if db.status.Sealed() { return Failed(Conflict); }
    if !R.MayActAsSecretary(actor) { return Failed(Forbidden); }
    if db.status.Cancelled? { return Failed(WorkflowState); }
    if db.settlement != null && db.settlement.status.Settled? { return Failed(WorkflowState); }
    if amount <= 0 || !textsGiven { return Failed(BadRequest); }
    if evidence.None? { return Failed(NotFound); }
    if !evidence.value.kind.IncomeEvidence? || !evidence.value.owned { return Failed(BadRequest); }
    if Find(db.incomes, IncomeId, id).Some? { return Failed(IntegrityViolation); }
    db.incomes := db.incomes + [Income(id, amount, Recorded, actor.id, None)];
    return Done;
  }

  method VerifyIncome(db: Store, actor: Actor, id: nat) returns (r: Reply)
    modifies db
    ensures db.advance == old(db.advance) && db.settlement == old(db.settlement)
    ensures r == R.VerifyIncome(old(db.File()), actor, id).Reply()
    ensures db.File() == After(old(db.File()), R.VerifyIncome(old(db.File()), actor, id))
  {
    if !actor.role.FinanceOfficer? { return Failed(Forbidden); }
    var at := Find(db.incomes, IncomeId, id);
    if at.None? { return Failed(NotFound); }
    if db.status.Sealed() { return Failed(Conflict); }
    var income := db.incomes[at.value];
    if actor.id == income.recordedBy { return Failed(Forbidden); }
    if !income.status.Recorded? { return Failed(InvalidTransition); }
    db.incomes := db.incomes[at.value := income.(status := IncomeVerified, verifiedBy := Some(actor.id))];
    return Done;
  }

  method RejectIncome(db: Store, actor: Actor, id: nat, reasonGiven: bool) returns (r: Reply)
    modifies db
    ensures db.advance == old(db.advance) && db.settlement == old(db.settlement)
    ensures r == R.RejectIncome(old(db.File()), actor, id, reasonGiven).Reply()
    ensures db.File() == After(old(db.File()), R.RejectIncome(old(db.File()), actor, id, reasonGiven))
  {
    if !actor.role.FinanceOfficer? { return Failed(Forbidden); }
    var at := Find(db.incomes, IncomeId, id);
    if at.None? { return Failed(NotFound); }
    var income := db.incomes[at.value];
    if actor.id == income.recordedBy { return Failed(Forbidden); }
    if !income.status.Recorded? { return Failed(InvalidTransition); }
    if !reasonGiven { return Failed(BadRequest); }
    db.incomes := db.incomes[at.value := income.(status := IncomeRejected, verifiedBy := Some(actor.id))];
    return Done;
  }

  // ---------- the accounting engine ----------

  /** Claimed, verified and disallowed totals of a fetched expense list, or nothing when some
      claim is still unresolved. */
  method TotalExpenses(expenses: seq<Expense>) returns (totals: Option<(int, int, int)>)
    ensures totals.None? <==> AnyUnresolved(expenses)
    ensures totals.Some? ==>
      && totals.value.0 == Sum(expenses, ClaimedPart)
      && totals.value.1 == Sum(expenses, VerifiedPart)
      && totals.value.2 == Sum(expenses, DisallowedPart)
  {
    var claimed, verified, disallowed := 0, 0, 0;
    for k := 0 to |expenses|
      invariant claimed == Sum(expenses[..k], ClaimedPart)
      invariant verified == Sum(expenses[..k], VerifiedPart)
      invariant disallowed == Sum(expenses[..k], DisallowedPart)
      invariant forall j :: 0 <= j < k ==> !expenses[j].Unresolved()
    {
      var e := expenses[k];
      if e.Unresolved() { return None; }
      claimed := claimed + e.claimed;
      if e.Cleared() {
        var amount := if e.verified.Some? then e.verified.value else e.claimed;
        verified := verified + amount;
        if e.claimed > amount { disallowed := disallowed + (e.claimed - amount); }
      } else if e.status.Disallowed? {
        disallowed := disallowed + e.claimed;
      }
      assert expenses[..k + 1][..k] == expenses[..k];
    }
    assert expenses[..|expenses|] == expenses;
    return Some((claimed, verified, disallowed));
  }

  method TotalIncome(incomes: seq<Income>) returns (total: Option<int>)
    ensures total.None? <==> AnyRecorded(incomes)
    ensures total.Some? ==> total.value == Sum(incomes, IncomePart)
  {
    var sum := 0;
    for k := 0 to |incomes|
      invariant sum == Sum(incomes[..k], IncomePart)
      invariant forall j :: 0 <= j < k ==> !incomes[j].status.Recorded?
    {
      if incomes[k].status.Recorded? { return None; }
      if incomes[k].status.IncomeVerified? { sum := sum + incomes[k].amount; }
      assert incomes[..k + 1][..k] == incomes[..k];
    }
    assert incomes[..|incomes|] == incomes;
    return Some(sum);
  }

  /** Reimbursements and refunds cleared over all rounds. */
  method TotalPayments(payments: seq<Payment>) returns (reimbursed: int, refunded: int)
    ensures reimbursed == Sum(payments, ReimbursedPart)
    ensures refunded == Sum(payments, RefundedPart)
  {
    reimbursed, refunded := 0, 0;
    for k := 0 to |payments|
      invariant reimbursed == Sum(payments[..k], ReimbursedPart)
      invariant refunded == Sum(payments[..k], RefundedPart)
    {
      if payments[k].kind.ReimbursementDisbursement? {
        reimbursed := reimbursed + payments[k].amount;
      } else {
        refunded := refunded + payments[k].amount;
      }
      assert payments[..k + 1][..k] == payments[..k];
    }
    assert payments[..|payments|] == payments;
  }

  method ComputeTotals(db: Store, grant: int) returns (r: Outcome<Figures>)
    ensures r == if R.SourcesResolved(db.File()) then Accepted(R.LiveFigures(db.File(), grant))
                 else Refused(BusinessRule)
  {
    var spent := TotalExpenses(db.expenses);
    if spent.None? { return Refused(BusinessRule); }
    var income := TotalIncome(db.incomes);
    if income.None? { return Refused(BusinessRule); }
    if db.advance != null && (db.advance.status.Requested? || db.advance.status.Approved?) {
      return Refused(BusinessRule);
    }
    var advance := if db.advance != null && db.advance.status.Disbursed? then db.advance.disbursed else 0;
    var (claimed, verified, disallowed) := spent.value;
    var deficit := Max(0, verified - income.value);
    var payout := Min(grant, deficit);
    var reimbursed, refunded := TotalPayments(db.payments);
    var balance := payout - (advance + reimbursed - refunded);
    var reimbursementDue, refundDue, kind := 0, 0, Balanced;
    if balance > 0 {
      reimbursementDue, kind := balance, ReimbursementDue;
    } else if balance < 0 {
      refundDue, kind := -balance, RefundDue;
    }
    return Accepted(Figures(claimed, verified, disallowed, income.value, deficit, payout, advance, balance,
                            reimbursementDue, refundDue, kind));
  }

  method ComputeFingerprint(db: Store, sanction: Sanction) returns (fingerprint: Canonical)
    ensures fingerprint == R.LiveFingerprint(db.File(), sanction)
  {
    var advance := if db.advance == null then None else Some(db.advance.Value());
    fingerprint := Compute(sanction.version, sanction.grant, db.expenses, db.incomes, advance);
  }

  // ---------- preparation ----------

  method PrepareSettlement(db: Store, actor: Actor) returns (r: Reply)
    modifies db, db.settlement
    ensures db.advance == old(db.advance) && fresh(db.Rows() - old(db.Rows()))
    ensures r == R.PrepareSettlement(old(db.File()), actor).Reply()
    ensures db.File() == After(old(db.File()), R.PrepareSettlement(old(db.File()), actor))
  {
    if db.status.Sealed() { return Failed(Conflict); }
    if !R.MayActAsSecretary(actor) { return Failed(Forbidden); }
    if !db.status.Completed? { return Failed(WorkflowState); }
    if db.report.None? || !db.report.value.status.Certified? { return Failed(WorkflowState); }
    var settlement := db.settlement;
    if settlement != null && !settlement.status.Reopened? { return Failed(Conflict); }
    if db.sanction.None? { return Failed(BusinessRule); }
    var sanction := db.sanction.value;
    var totals := ComputeTotals(db, sanction.grant);
    if totals.Refused? { return Failed(totals.error); }
    var fingerprint := ComputeFingerprint(db, sanction);

    if settlement == null {
      db.settlement := new SettlementRow(sanction, totals.state, actor.id, fingerprint);
    } else {
      settlement.Recompile(sanction, totals.state, actor.id, fingerprint);
    }
    return Done;
  }

  // ---------- stale-data protection ----------

  method VerifyLiveSources(db: Store, settlement: SettlementRow, found: bool) returns (stale: Option<Error>)
    ensures stale == R.Staleness(db.File(), settlement.Value(), found)
  {
    if db.sanction.None? { return Some(BusinessRule); }
    var sanction := db.sanction.value;
    var totals := ComputeTotals(db, sanction.grant);
    if totals.Refused? { return Some(totals.error); }
    var live := totals.state;

    var mismatches := 0;
    if settlement.sanction.version != sanction.version { mismatches := mismatches + 1; }
    if settlement.sanction.grant != sanction.grant { mismatches := mismatches + 1; }
    if found {
      var fingerprint := ComputeFingerprint(db, sanction);
      if settlement.fingerprint != fingerprint { mismatches := mismatches + 1; }
    }
    if settlement.figures.verified != live.verified { mismatches := mismatches + 1; }
    if settlement.figures.income != live.income { mismatches := mismatches + 1; }
    if settlement.figures.advance != live.advance { mismatches := mismatches + 1; }
    return if mismatches > 0 then Some(StaleData) else None;
  }

  method SubmitSettlement(db: Store, actor: Actor, found: bool) returns (r: Reply)
    modifies db.settlement
    ensures r == R.SubmitSettlement(old(db.File()), actor, found).Reply()
    ensures db.File() == After(old(db.File()), R.SubmitSettlement(old(db.File()), actor, found))
  {
    var settlement := db.settlement;
    if settlement == null { return Failed(NotFound); }
    if db.status.Sealed() { return Failed(Conflict); }
    if !R.MayActAsSecretary(actor) { return Failed(Forbidden); }
    if !settlement.status.Drafted? && !settlement.status.SettlementQueried? && !settlement.status.Reopened? {
      return Failed(InvalidTransition);
    }
    var stale := VerifyLiveSources(db, settlement, found);
    if stale.Some? { return Failed(stale.value); }
    settlement.status := UnderAudit;
    return Done;
  }

  method AuditSettlement(db: Store, actor: Actor, decision: R.Decision, found: bool) returns (r: Reply)
    modifies db.settlement
    ensures r == R.AuditSettlement(old(db.File()), actor, decision, found).Reply()
    ensures db.File() == After(old(db.File()), R.AuditSettlement(old(db.File()), actor, decision, found))
  {
    if !actor.role.FinanceOfficer? { return Failed(Forbidden); }
    if decision.Unknown? { return Failed(BadRequest); }
    var settlement := db.settlement;
    if settlement == null { return Failed(NotFound); }
    if !settlement.status.UnderAudit? { return Failed(InvalidTransition); }
    if db.status.Sealed() { return Failed(Conflict); }
    var stale := VerifyLiveSources(db, settlement, found);
    if stale.Some? { return Failed(stale.value); }
    if decision.Query? {
      if !decision.reasonGiven { return Failed(BadRequest); }
      settlement.status := SettlementQueried;
      return Done;
    }
    settlement.auditedBy := Some(actor.id);
    match settlement.figures.kind {
      case Balanced => settlement.status := Settled;
      case ReimbursementDue => settlement.status := PendingReimbursement;
      case RefundDue => settlement.status := PendingRefund;
    }
    return Done;
  }

  // ---------- payments ----------

  method RecordPayment(db: Store, actor: Actor, kind: PaymentKind, amount: int, referenceGiven: bool,
                       proof: Option<Document>) returns (r: Reply)
    modifies db, db.settlement
    ensures db.advance == old(db.advance) && db.settlement == old(db.settlement)
    ensures r == R.RecordPayment(old(db.File()), actor, kind, amount, referenceGiven, proof).Reply()
    ensures db.File()
         == After(old(db.File()), R.RecordPayment(old(db.File()), actor, kind, amount, referenceGiven, proof))
  {
    if !actor.role.FinanceOfficer? { return Failed(Forbidden); }
    var settlement := db.settlement;
    if settlement == null { return Failed(NotFound); }
    if !settlement.status.PendingReimbursement? && !settlement.status.PendingRefund? {
      return Failed(InvalidTransition);
    }
    if db.status.Sealed() { return Failed(Conflict); }
    if settlement.figures.kind.Balanced? { return Failed(BusinessRule); }
    var reimbursed, refunded := TotalPayments(db.payments);
    var net := settlement.figures.advance + reimbursed - refunded;
    var remaining;
    if settlement.figures.kind.ReimbursementDue? {
      if !kind.ReimbursementDisbursement? { return Failed(BusinessRule); }
      remaining := settlement.figures.payout - net;
    } else {
      if !kind.AdvanceRefundReceipt? { return Failed(BusinessRule); }
      remaining := net - settlement.figures.payout;
    }
    if amount <= 0 || !referenceGiven { return Failed(BadRequest); }
    if proof.None? { return Failed(NotFound); }
    if !proof.value.kind.PaymentProof? || !proof.value.owned { return Failed(BadRequest); }
    if amount > remaining { return Failed(BusinessRule); }
    db.payments := db.payments + [Payment(kind, amount, proof.value.id, actor.id)];

    if kind.ReimbursementDisbursement? {
      remaining := settlement.figures.payout - (settlement.figures.advance + (reimbursed + amount) - refunded);
    } else {
      remaining := (settlement.figures.advance + reimbursed - (refunded + amount)) - settlement.figures.payout;
    }
    if remaining <= 0 {
      settlement.status := Settled;
    }
    return Done;
  }

  // ---------- reopening ----------

  method ReopenSettlement(db: Store, actor: Actor, reasonGiven: bool) returns (r: Reply)
    modifies db, db.settlement
    ensures db.advance == old(db.advance) && db.settlement == old(db.settlement)
    ensures r == R.ReopenSettlement(old(db.File()), actor, reasonGiven).Reply()
    ensures db.File() == After(old(db.File()), R.ReopenSettlement(old(db.File()), actor, reasonGiven))
  {
    if !R.MayReopen(actor) { return Failed(Forbidden); }
    if !reasonGiven { return Failed(BadRequest); }
    var settlement := db.settlement;
    if settlement == null { return Failed(NotFound); }
    if !settlement.status.Settled? { return Failed(BusinessRule); }
    if db.status.Sealed() { return Failed(Conflict); }
    var number := |db.revisions| + 1;
    db.revisions := db.revisions + [SettlementRevision(number, settlement.Value(), db.payments, actor.id)];
    settlement.status := Reopened;
    return Done;
  }
}
