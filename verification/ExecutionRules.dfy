/** What delivering, reporting on and cancelling a confirmed event does to its record. */
module ExecutionRules {
  import opened Common
  import opened Ledger
  import opened EventFiles

  /** An event may be started from two hours before its scheduled start, in minutes. */
  const EARLY_START := 120

  function StartEvent(f: EventFile, actor: Actor, now: int): Outcome<EventFile> {
    if f.status.Sealed() then Refused(Conflict)
    else if !actor.secretary then Refused(Forbidden)
    else if !f.status.Scheduled? then Refused(WorkflowState)
    else if now < f.startTime - EARLY_START then Refused(BadRequest)
    else Accepted(f.(status := InProgress))
  }

  function AdminStartEvent(f: EventFile, actor: Actor): Outcome<EventFile> {
    if !actor.role.SystemAdmin? then Refused(Forbidden)
    else if f.status.Sealed() then Refused(Conflict)
    else if !f.status.Scheduled? then Refused(WorkflowState)
    else Accepted(f.(status := InProgress))
  }

  function CompleteAndSubmitReport(f: EventFile, actor: Actor): Outcome<EventFile> {
    if f.status.Sealed() then Refused(Conflict)
    else if !actor.secretary then Refused(Forbidden)
    else if f.status.Completed? then Refused(Conflict)
    else if !(f.status.InProgress? || f.status.Scheduled?) then Refused(WorkflowState)
    else if f.report.Some? then
      Refused(if f.report.value.status.RevisionRequired? then WorkflowState else Conflict)
    else Accepted(f.(report := Some(Report(1, actor.id, ReportSubmitted, None)), status := Completed))
  }

  function ResubmitReport(f: EventFile, actor: Actor): Outcome<EventFile> {
    if f.status.Sealed() then Refused(Conflict)
    else if !actor.secretary then Refused(Forbidden)
    else if f.report.None? then Refused(NotFound)
    else
      var r := f.report.value;
      if !r.status.RevisionRequired? then Refused(WorkflowState)
      else Accepted(f.(report := Some(r.(revision := r.revision + 1, status := ReportSubmitted))))
  }

  predicate MayJudgeReport(actor: Actor, r: Report) {
    r.submittedBy != actor.id && !actor.role.SystemAdmin? && actor.advisor
  }

  function CertifyReport(f: EventFile, actor: Actor): Outcome<EventFile> {
    if f.status.Sealed() then Refused(Conflict)
    else if f.report.None? then Refused(NotFound)
    else
      var r := f.report.value;
      if !MayJudgeReport(actor, r) then Refused(Forbidden)
      else if r.status.Certified? then Refused(Conflict)
      else if !r.status.ReportSubmitted? then Refused(WorkflowState)
      else Accepted(f.(report := Some(r.(status := Certified, certifiedBy := Some(actor.id)))))
  }

  function RequestReportRevision(f: EventFile, actor: Actor): Outcome<EventFile> {
    if f.status.Sealed() then Refused(Conflict)
    else if f.report.None? then Refused(NotFound)
    else
      var r := f.report.value;
      if !MayJudgeReport(actor, r) then Refused(Forbidden)
      else if !r.status.ReportSubmitted? then Refused(WorkflowState)
      else Accepted(f.(report := Some(r.(status := RevisionRequired))))
  }

  predicate MayCancel(actor: Actor) {
    || actor.role.Principal? || actor.role.DeanStudentAffairs? || actor.role.SystemAdmin?
    || (actor.role.ClubSecretary? && actor.secretary)
  }

  function CancelEvent(f: EventFile, actor: Actor): Outcome<EventFile> {
    if !MayCancel(actor) then Refused(Forbidden)
    else if f.status.Sealed() then Refused(Conflict)
    else if !(f.status.Scheduled? || f.status.InProgress?) then Refused(WorkflowState)
    else
      var advance := if AdvancePending(f.advance) then Some(f.advance.value.(status := Rejected)) else f.advance;
      Accepted(f.(advance := advance, status := Cancelled))
  }

  // ---------- one step ----------

  datatype ExecutionOp =
    | StartOp(actor: Actor, now: int)
    | AdminStartOp(actor: Actor)
    | CompleteOp(actor: Actor)
    | ResubmitReportOp(actor: Actor)
    | CertifyReportOp(actor: Actor)
    | RequestReportRevisionOp(actor: Actor)
    | CancelOp(actor: Actor)

  function Apply(f: EventFile, op: ExecutionOp): Outcome<EventFile> {
    match op
    case StartOp(actor, now) => StartEvent(f, actor, now)
    case AdminStartOp(actor) => AdminStartEvent(f, actor)
    case CompleteOp(actor) => CompleteAndSubmitReport(f, actor)
    case ResubmitReportOp(actor) => ResubmitReport(f, actor)
    case CertifyReportOp(actor) => CertifyReport(f, actor)
    case RequestReportRevisionOp(actor) => RequestReportRevision(f, actor)
    case CancelOp(actor) => CancelEvent(f, actor)
  }

  lemma StepKeepsLifecycle(f: EventFile, op: ExecutionOp)
    requires LifecycleSound(f)
    ensures LifecycleSound(After(f, Apply(f, op)))
  {
  }

  lemma StepKeepsAdvance(f: EventFile, op: ExecutionOp)
    requires AdvanceSound(f.advance, f.sanction)
    ensures AdvanceSound(After(f, Apply(f, op)).advance, f.sanction)
  {
  }

  lemma StepKeepsSound(f: EventFile, op: ExecutionOp)
    requires Sound(f)
    ensures Sound(After(f, Apply(f, op)))
  {
    StepFrame(f, op);
    StepKeepsLifecycle(f, op);
    StepKeepsAdvance(f, op);
    var f' := After(f, Apply(f, op));
    assert MoneySound(f') && HistorySound(f');
  }

  /** Delivery and cancellation touch the status, the report and the advance, nothing else; the
      disbursed amount stays what it was. */
  lemma StepFrame(f: EventFile, op: ExecutionOp)
    ensures var f' := After(f, Apply(f, op));
            && f' == f.(status := f'.status, report := f'.report, advance := f'.advance)
            && DisbursedPart(f'.advance) == DisbursedPart(f.advance)
            && (f'.status.Sealed() <==> f.status.Sealed())
  {
  }
}
