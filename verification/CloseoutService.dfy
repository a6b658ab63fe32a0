/** The closeout service over the mutable rows of an event. */
module CloseoutService {
  import opened Common
  import opened Ledger
  import opened EventFiles
  import opened EventStore
  import R = CloseoutRules
  import SettlementService

  /** The settlement service's evaluation: blockers are appended as the checks fail. */
  method FinancialEligibility(db: Store) returns (blockers: seq<R.Blocker>)
    ensures blockers == R.FinancialBlockers(db.File())
  {
    ghost var f := db.File();
    blockers := [];
    if !db.status.Completed? { blockers := blockers + [R.EventNotCompleted]; }
    assert blockers == R.Failing(f, 1);
    if db.report.None? || !db.report.value.status.Certified? { blockers := blockers + [R.ReportNotCertified]; }
    assert blockers == R.Failing(f, 2);
    if AnyUnresolved(db.expenses) { blockers := blockers + [R.UnresolvedExpenses]; }
    assert blockers == R.Failing(f, 3);
    if AnyRecorded(db.incomes) { blockers := blockers + [R.UnverifiedIncome]; }
    assert blockers == R.Failing(f, 4);
    if db.advance != null && (db.advance.status.Requested? || db.advance.status.Approved?) {
      blockers := blockers + [R.AdvanceUnresolved];
    }
    assert blockers == R.Failing(f, 5);
    blockers := SettlementEligibility(db, blockers);
  }

  method SettlementEligibility(db: Store, before: seq<R.Blocker>) returns (blockers: seq<R.Blocker>)
    requires before == R.Failing(db.File(), 5)
    ensures blockers == R.Failing(db.File(), 8)
  {
    ghost var f := db.File();
    blockers := before;
    if db.settlement == null { blockers := blockers + [R.SettlementMissing]; }
    assert blockers == R.Failing(f, 6);
    if db.settlement != null && !db.settlement.status.Settled? { blockers := blockers + [R.SettlementNotSettled]; }
    assert blockers == R.Failing(f, 7);
    if db.settlement != null && db.settlement.status.Settled? {
      var reimbursed, refunded := SettlementService.TotalPayments(db.payments);
      var net := db.settlement.figures.advance + reimbursed - refunded;
      if net != db.settlement.figures.payout { blockers := blockers + [R.PaymentOutstanding]; }
    }
  }

  method ClosureEligibility(db: Store, venue: R.Venue, now: int) returns (blockers: seq<R.Blocker>)
    ensures blockers == R.Blockers(db.File(), venue, now)
  {
    var own := if db.status.Cancelled? then [R.EventCancelled] else [];
    assert own == R.Also([], db.status.Cancelled?, R.EventCancelled);
    blockers := own;
    var financial := FinancialEligibility(db);
    var past := db.status.ClosureRequested? || db.status.Closed? || db.status.Archived?;
    for k := 0 to |financial|
      invariant blockers == R.Carried(own, financial[..k], past)
    {
      var b := financial[k];
      assert financial[..k + 1][..k] == financial[..k];
      if !(b.EventNotCompleted? && past) && b !in blockers {
        blockers := blockers + [b];
      }
    }
    assert financial[..|financial|] == financial;
    if venue.BookedUntil? && venue.end > now { blockers := blockers + [R.VenueBookingNotEnded]; }
  }

  method RequestCloseout(db: Store, actor: Actor, venue: R.Venue, now: int) returns (r: Reply)
    modifies db`status
    ensures r == R.RequestCloseout(old(db.File()), actor, venue, now).Reply()
    ensures db.File() == After(old(db.File()), R.RequestCloseout(old(db.File()), actor, venue, now))
  {
    if actor.role.SystemAdmin? || !actor.secretary { return Failed(Forbidden); }
    if db.status.ClosureRequested? { return Done; }
    if !db.status.Completed? { return Failed(InvalidTransition); }
    var blockers := ClosureEligibility(db, venue, now);
    if blockers != [] { return Failed(BusinessRule); }
    db.status := ClosureRequested;
    return Done;
  }

  method CertifyCloseout(db: Store, actor: Actor, delegated: bool, venueCleared: bool, venue: R.Venue, now: int)
    returns (r: Reply)
    modifies db`status, db`closure
    ensures r == R.CertifyCloseout(old(db.File()), actor, delegated, venueCleared, venue, now).Reply()
    ensures db.File()
         == After(old(db.File()), R.CertifyCloseout(old(db.File()), actor, delegated, venueCleared, venue, now))
  {
    if !R.MayCertify(actor, delegated) { return Failed(Forbidden); }
    if !venueCleared { return Failed(BusinessRule); }
    if !db.status.ClosureRequested? { return Failed(InvalidTransition); }
    var blockers := ClosureEligibility(db, venue, now);
    if blockers != [] { return Failed(BusinessRule); }
    if db.settlement == null || !db.settlement.status.Settled? { return Failed(BusinessRule); }
    if db.report.None? || !db.report.value.status.Certified? { return Failed(BusinessRule); }
    db.closure := Some(Closure(actor.id, R.ManifestOf(db.settlement.Value(), actor.id)));
    db.status := Closed;
    return Done;
  }

  method RejectCloseout(db: Store, actor: Actor, delegated: bool, reasonGiven: bool) returns (r: Reply)
    modifies db`status
    ensures r == R.RejectCloseout(old(db.File()), actor, delegated, reasonGiven).Reply()
    ensures db.File() == After(old(db.File()), R.RejectCloseout(old(db.File()), actor, delegated, reasonGiven))
  {
    if !reasonGiven { return Failed(BadRequest); }
    if !R.MayCertify(actor, delegated) { return Failed(Forbidden); }
    if !db.status.ClosureRequested? { return Failed(InvalidTransition); }
    db.status := Completed;
    return Done;
  }

  /** A petition is only recorded in the audit log; the event stays CLOSED until it is approved. */
  method RequestReopen(db: Store, actor: Actor, reasonGiven: bool) returns (r: Reply)
    ensures r == R.RequestReopen(db.File(), actor, reasonGiven).Reply()
  {
    if !reasonGiven { return Failed(BadRequest); }
    if !R.MayPetition(actor) { return Failed(Forbidden); }
    if !db.status.Closed? { return Failed(InvalidTransition); }
    return Done;
  }

  /** The nested settlement reopening runs in the same transaction: were it refused, the revision
      and the status change would be rolled back with it. On a sound record it never is. */
  method ApproveReopen(db: Store, actor: Actor, reasonGiven: bool) returns (r: Reply)
    modifies db, db.settlement
    ensures db.advance == old(db.advance) && db.settlement == old(db.settlement)
    ensures r == R.ApproveReopen(old(db.File()), actor, reasonGiven).Reply()
    ensures db.File() == After(old(db.File()), R.ApproveReopen(old(db.File()), actor, reasonGiven))
  {
    if !reasonGiven { return Failed(BadRequest); }
    if !R.MayApproveReopen(actor) { return Failed(Forbidden); }
    if !db.status.Closed? { return Failed(InvalidTransition); }
    if db.closure.None? || db.settlement == null { return Failed(BusinessRule); }
    var history := db.closureRevisions;
    var revision := ClosureRevision(|history| + 1, db.closure.value, db.settlement.Value(), actor.id);
    db.closureRevisions := history + [revision];
    db.status := Completed;
    r := SettlementService.ReopenSettlement(db, actor, reasonGiven);
    if r.Failed? {
      db.closureRevisions, db.status := history, Closed;
    }
  }

  method ArchiveEvent(db: Store, actor: Actor) returns (r: Reply)
    modifies db`status
    ensures r == R.ArchiveEvent(old(db.File()), actor).Reply()
    ensures db.File() == After(old(db.File()), R.ArchiveEvent(old(db.File()), actor))
  {
    if !actor.role.SystemAdmin? { return Failed(Forbidden); }
    if db.status.Archived? { return Done; }
    if !db.status.Closed? { return Failed(InvalidTransition); }
    if db.closure.None? { return Failed(BusinessRule); }
    db.status := Archived;
    return Done;
  }
}
