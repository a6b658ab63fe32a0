/** The execution service, and the cancellation of confirmed events, over the mutable rows. */
module ExecutionService {
  import opened Common
  import opened Ledger
  import opened EventFiles
  import opened EventStore
  import R = ExecutionRules

  method StartEvent(db: Store, actor: Actor, now: int) returns (r: Reply)
    modifies db`status
    ensures r == R.StartEvent(old(db.File()), actor, now).Reply()
    ensures db.File() == After(old(db.File()), R.StartEvent(old(db.File()), actor, now))
  {
    if db.status.Sealed() { return Failed(Conflict); }
    if !actor.secretary { return Failed(Forbidden); }
    if !db.status.Scheduled? { return Failed(WorkflowState); }
    if now < db.startTime - R.EARLY_START { return Failed(BadRequest); }
    db.status := InProgress;
    return Done;
  }

  method AdminStartEvent(db: Store, actor: Actor) returns (r: Reply)
    modifies db`status
    ensures r == R.AdminStartEvent(old(db.File()), actor).Reply()
    ensures db.File() == After(old(db.File()), R.AdminStartEvent(old(db.File()), actor))
  {
    if !actor.role.SystemAdmin? { return Failed(Forbidden); }
    if db.status.Sealed() { return Failed(Conflict); }
    if !db.status.Scheduled? { return Failed(WorkflowState); }
    db.status := InProgress;
    return Done;
  }

  method CompleteAndSubmitReport(db: Store, actor: Actor) returns (r: Reply)
    modifies db`status, db`report
    ensures r == R.CompleteAndSubmitReport(old(db.File()), actor).Reply()
    ensures db.File() == After(old(db.File()), R.CompleteAndSubmitReport(old(db.File()), actor))
  {
    if db.status.Sealed() { return Failed(Conflict); }
    if !actor.secretary { return Failed(Forbidden); }
    if !db.status.InProgress? && !db.status.Scheduled? {
      return Failed(if db.status.Completed? then Conflict else WorkflowState);
    }
    if db.report.Some? {
      return Failed(if db.report.value.status.RevisionRequired? then WorkflowState else Conflict);
    }
    db.report := Some(Report(1, actor.id, ReportSubmitted, None));
    db.status := Completed;
    return Done;
  }

  method ResubmitReport(db: Store, actor: Actor) returns (r: Reply)
    modifies db`report
    ensures r == R.ResubmitReport(old(db.File()), actor).Reply()
    ensures db.File() == After(old(db.File()), R.ResubmitReport(old(db.File()), actor))
  {
    if db.status.Sealed() { return Failed(Conflict); }
    if !actor.secretary { return Failed(Forbidden); }
    if db.report.None? { return Failed(NotFound); }
    var report := db.report.value;
    if !report.status.RevisionRequired? { return Failed(WorkflowState); }
    db.report := Some(report.(revision := report.revision + 1, status := ReportSubmitted));
    return Done;
  }

  method CertifyReport(db: Store, actor: Actor) returns (r: Reply)
    modifies db`report
    ensures r == R.CertifyReport(old(db.File()), actor).Reply()
    ensures db.File() == After(old(db.File()), R.CertifyReport(old(db.File()), actor))
  {
    if db.status.Sealed() { return Failed(Conflict); }
    if db.report.None? { return Failed(NotFound); }
    var report := db.report.value;
    if report.submittedBy == actor.id { return Failed(Forbidden); }
    if actor.role.SystemAdmin? || !actor.advisor { return Failed(Forbidden); }
    if !report.status.ReportSubmitted? {
      return Failed(if report.status.Certified? then Conflict else WorkflowState);
    }
    db.report := Some(report.(status := Certified, certifiedBy := Some(actor.id)));
    return Done;
  }

  method RequestReportRevision(db: Store, actor: Actor) returns (r: Reply)
    modifies db`report
    ensures r == R.RequestReportRevision(old(db.File()), actor).Reply()
    ensures db.File() == After(old(db.File()), R.RequestReportRevision(old(db.File()), actor))
  {
    if db.status.Sealed() { return Failed(Conflict); }
    if db.report.None? { return Failed(NotFound); }
    var report := db.report.value;
    if report.submittedBy == actor.id { return Failed(Forbidden); }
    if actor.role.SystemAdmin? || !actor.advisor { return Failed(Forbidden); }
    if !report.status.ReportSubmitted? { return Failed(WorkflowState); }
    db.report := Some(report.(status := RevisionRequired));
    return Done;
  }

  /** A pending advance is rejected with the event; a disbursed one stays as a liability. */
  method CancelConfirmedEvent(db: Store, actor: Actor) returns (r: Reply)
    modifies db`status, db.advance
    ensures r == R.CancelEvent(old(db.File()), actor).Reply()
    ensures db.File() == After(old(db.File()), R.CancelEvent(old(db.File()), actor))
  {
    if !R.MayCancel(actor) { return Failed(Forbidden); }
    if db.status.Sealed() { return Failed(Conflict); }
    if !db.status.Scheduled? && !db.status.InProgress? { return Failed(WorkflowState); }
    if db.advance != null && (db.advance.status.Requested? || db.advance.status.Approved?) {
      db.advance.status := Rejected;
    }
    db.status := Cancelled;
    return Done;
  }
}
