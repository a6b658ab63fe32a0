/** What a caller of the execution and closeout services can rely on: exactly when each operation
    goes through, and what the record then says. */
module DeliveryOutcomes {
  import opened Common
  import opened Ledger
  import opened EventFiles
  import opened ExecutionRules
  import C = CloseoutRules
  import S = SettlementOutcomes

  // ---------- delivery ----------

  /** The secretary may start from two hours before the scheduled time, in minutes. */
  lemma EventIsStartedWhen(f: EventFile, actor: Actor, now: int)
    ensures var o := StartEvent(f, actor, now);
            && (o.Accepted? <==> actor.secretary && f.status == Scheduled && f.startTime - now <= 120)
            && (o.Accepted? ==> o.state == f.(status := InProgress))
            && (o.Refused? ==>
                  match o.error
                  case Conflict => S.Shut(f)
                  case Forbidden => !actor.secretary
                  case WorkflowState => f.status != Scheduled
                  case BadRequest => f.startTime - now > 120
                  case _ => false)
  {
  }

  lemma EventIsStartedByAdminWhen(f: EventFile, actor: Actor)
    ensures var o := AdminStartEvent(f, actor);
            && (o.Accepted? <==> actor.role == SystemAdmin && f.status == Scheduled)
            && (o.Accepted? ==> o.state == f.(status := InProgress))
            && (o.Refused? ==>
                  match o.error
                  case Forbidden => actor.role != SystemAdmin
                  case Conflict => S.Shut(f)
                  case WorkflowState => f.status != Scheduled
                  case _ => false)
  {
  }

  lemma EventIsCompletedWhen(f: EventFile, actor: Actor)
    ensures var o := CompleteAndSubmitReport(f, actor);
            && (o.Accepted? <==>
                  actor.secretary && (f.status == Scheduled || f.status == InProgress) && f.report == None)
            && (o.Accepted? ==>
                  o.state == f.(status := Completed, report := Some(Report(1, actor.id, ReportSubmitted, None))))
            && (o.Refused? ==>
                  match o.error
                  case Conflict => S.Shut(f) || f.status == Completed || f.report.Some?
                  case Forbidden => !actor.secretary
                  case WorkflowState => (f.status != Scheduled && f.status != InProgress)
                                        || (f.report.Some? && f.report.value.status == RevisionRequired)
                  case _ => false)
  {
  }

  lemma ReportIsResubmittedWhen(f: EventFile, actor: Actor)
    ensures var o := ResubmitReport(f, actor);
            && (o.Accepted? <==> actor.secretary && !S.Shut(f)
                                 && f.report.Some? && f.report.value.status == RevisionRequired)
            && (o.Accepted? ==>
                  var r := f.report.value;
                  o.state == f.(report := Some(Report(r.revision + 1, r.submittedBy, ReportSubmitted, r.certifiedBy))))
            && (o.Refused? ==>
                  match o.error
                  case Conflict => S.Shut(f)
                  case Forbidden => !actor.secretary
                  case NotFound => f.report == None
                  case WorkflowState => f.report.Some? && f.report.value.status != RevisionRequired
                  case _ => false)
  {
  }

  /** The club's advisor, having neither submitted the report nor administrative powers. */
  ghost predicate Judge(actor: Actor, r: Report) {
    actor.advisor && actor.id != r.submittedBy && actor.role != SystemAdmin
  }

  lemma ReportIsJudgedWhen(f: EventFile, actor: Actor)
    ensures var certify, sendBack := CertifyReport(f, actor), RequestReportRevision(f, actor);
            var judged := !S.Shut(f) && f.report.Some? && Judge(actor, f.report.value)
                          && f.report.value.status == ReportSubmitted;
            && (certify.Accepted? <==> judged) && (sendBack.Accepted? <==> judged)
            && (judged ==>
                  var r := f.report.value;
                  && certify.state
                     == f.(report := Some(Report(r.revision, r.submittedBy, Certified, Some(actor.id))))
                  && sendBack.state
                     == f.(report := Some(Report(r.revision, r.submittedBy, RevisionRequired, r.certifiedBy))))
  {
  }

  lemma ReportRefusalMeans(f: EventFile, actor: Actor, o: Outcome<EventFile>)
    requires o == CertifyReport(f, actor) || o == RequestReportRevision(f, actor)
    requires o.Refused?
    ensures match o.error
            case Conflict => S.Shut(f) || (f.report.Some? && f.report.value.status == Certified)
            case NotFound => f.report == None
            case Forbidden => f.report.Some? && !Judge(actor, f.report.value)
            case WorkflowState => f.report.Some? && f.report.value.status != ReportSubmitted
            case _ => false
  {
  }

  /** Cancelling withdraws an advance that is not paid out yet, and touches nothing else. */
  lemma EventIsCancelledWhen(f: EventFile, actor: Actor)
    ensures var o := CancelEvent(f, actor);
            var authorised := actor.role in {Principal, DeanStudentAffairs, SystemAdmin}
                              || (actor.role == ClubSecretary && actor.secretary);
            && (o.Accepted? <==> authorised && (f.status == Scheduled || f.status == InProgress))
            && (o.Accepted? ==>
                  && o.state == f.(status := Cancelled, advance := o.state.advance)
                  && match f.advance
                     case None => o.state.advance == None
                     case Some(a) =>
                       if a.status == Requested || a.status == Approved
                       then o.state.advance == Some(a.(status := Rejected))
                       else o.state.advance == f.advance)
            && (o.Refused? ==>
                  match o.error
                  case Forbidden => !authorised
                  case Conflict => S.Shut(f)
                  case WorkflowState => f.status != Scheduled && f.status != InProgress
                  case _ => false)
  {
  }

  // ---------- closeout ----------

  ghost predicate HallInUse(venue: C.Venue, now: int) { venue.BookedUntil? && now < venue.end }

  /** Delivered and reported, every source decided, settled and paid up, and the hall free again. */
  ghost predicate Closable(f: EventFile, venue: C.Venue, now: int) {
    && f.report.Some? && f.report.value.status == Certified
    && S.Decided(f) && f.settlement.Some?
    && var s := f.settlement.value;
       && s.status == Settled
       && s.figures.advance + Sum(f.payments, ReimbursedPart) - Sum(f.payments, RefundedPart) == s.figures.payout
       && !HallInUse(venue, now)
  }

  lemma EligibleMeansClosable(f: EventFile, venue: C.Venue, now: int)
    requires f.status == Completed || f.status == ClosureRequested
    ensures C.Eligible(f, venue, now) <==> Closable(f, venue, now)
  {
    C.EligibleMeans(f, venue, now);
    S.DecidedMeansResolved(f);
  }

  lemma CloseoutIsRequestedWhen(f: EventFile, actor: Actor, venue: C.Venue, now: int)
    ensures var o := C.RequestCloseout(f, actor, venue, now);
            && (o.Accepted? <==>
                  && S.BySecretary(actor)
                  && (f.status == ClosureRequested || (f.status == Completed && Closable(f, venue, now))))
            && (o.Accepted? ==> o.state == f.(status := ClosureRequested))
            && (o.Refused? ==>
                  match o.error
                  case Forbidden => !S.BySecretary(actor)
                  case InvalidTransition => f.status != Completed && f.status != ClosureRequested
                  case BusinessRule => !Closable(f, venue, now)
                  case _ => false)
  {
    if f.status == Completed { EligibleMeansClosable(f, venue, now); }
  }

  ghost predicate Certifier(actor: Actor, delegated: bool) {
    || actor.role == DeanStudentAffairs || actor.role == Principal
    || (actor.role == FacultyAdvisor && delegated && actor.advisor)
  }

  /** The certificate states the figures of the settlement that is closed over. */
  lemma CloseoutIsCertifiedWhen(f: EventFile, actor: Actor, delegated: bool, venueCleared: bool, venue: C.Venue,
                                now: int)
    ensures var o := C.CertifyCloseout(f, actor, delegated, venueCleared, venue, now);
            && (o.Accepted? <==>
                  && Certifier(actor, delegated) && venueCleared
                  && f.status == ClosureRequested && Closable(f, venue, now))
            && (o.Accepted? ==>
                  && o.state.closure.Some? && o.state == f.(status := Closed, closure := o.state.closure)
                  && var c, s := o.state.closure.value, f.settlement.value;
                     && c.certifiedBy == c.manifest.certifiedBy == actor.id
                     && c.manifest.grant == s.sanction.grant && c.manifest.payout == s.figures.payout
                     && c.manifest.balance == s.figures.balance && c.manifest.verified == s.figures.verified
                     && c.manifest.income == s.figures.income)
            && (o.Refused? ==>
                  match o.error
                  case Forbidden => !Certifier(actor, delegated)
                  case BusinessRule => !venueCleared || !Closable(f, venue, now)
                  case InvalidTransition => f.status != ClosureRequested
                  case _ => false)
  {
    if f.status == ClosureRequested { EligibleMeansClosable(f, venue, now); }
  }

  lemma CloseoutIsRejectedWhen(f: EventFile, actor: Actor, delegated: bool, reasonGiven: bool)
    ensures var o := C.RejectCloseout(f, actor, delegated, reasonGiven);
            && (o.Accepted? <==> Certifier(actor, delegated) && reasonGiven && f.status == ClosureRequested)
            && (o.Accepted? ==> o.state == f.(status := Completed))
            && (o.Refused? ==>
                  match o.error
                  case BadRequest => !reasonGiven
                  case Forbidden => !Certifier(actor, delegated)
                  case InvalidTransition => f.status != ClosureRequested
                  case _ => false)
  {
  }

  /** Finance may petition; the club's advisor and secretary may; a system administrator may not. */
  lemma ReopeningIsPetitionedWhen(f: EventFile, actor: Actor, reasonGiven: bool)
    ensures var o := C.RequestReopen(f, actor, reasonGiven);
            var authorised := match actor.role
                              case SystemAdmin => false
                              case FinanceOfficer => true
                              case FacultyAdvisor => actor.advisor
                              case _ => actor.secretary;
            && (o.Accepted? <==> authorised && reasonGiven && f.status == Closed)
            && (o.Accepted? ==> o.state == f)
            && (o.Refused? ==>
                  match o.error
                  case BadRequest => !reasonGiven
                  case Forbidden => !authorised
                  case InvalidTransition => f.status != Closed
                  case _ => false)
  {
  }

  lemma ReopeningRefusalMeans(f: EventFile, actor: Actor, reasonGiven: bool)
    requires Sound(f) && C.ApproveReopen(f, actor, reasonGiven).Refused?
    ensures match C.ApproveReopen(f, actor, reasonGiven).error
            case BadRequest => !reasonGiven
            case Forbidden => actor.role != DeanStudentAffairs && actor.role != Principal
            case InvalidTransition => f.status != Closed
            case _ => false
  {
    if f.status == Closed { C.ReopeningAlwaysCompletes(f, actor, reasonGiven); }
  }

  lemma EventIsArchivedWhen(f: EventFile, actor: Actor)
    ensures var o := C.ArchiveEvent(f, actor);
            && (o.Accepted? <==> actor.role == SystemAdmin
                                 && (f.status == Archived || (f.status == Closed && f.closure.Some?)))
            && (o.Accepted? ==> o.state == f.(status := Archived))
            && (o.Refused? ==>
                  match o.error
                  case Forbidden => actor.role != SystemAdmin
                  case InvalidTransition => f.status != Closed && f.status != Archived
                  case BusinessRule => f.closure == None
                  case _ => false)
  {
  }

  /** From a settled event on, the whole way to the certificate stands open. */
  lemma SettledEventIsClosed(f: EventFile, secretary: Actor, dean: Actor, venue: C.Venue, now: int)
    requires f.status == Completed && Closable(f, venue, now)
    requires S.BySecretary(secretary) && dean.role == DeanStudentAffairs
    ensures var requested := After(f, C.RequestCloseout(f, secretary, venue, now));
            var o := C.CertifyCloseout(requested, dean, false, true, venue, now);
            o.Accepted? && o.state.status == Closed && o.state.settlement == f.settlement
  {
    CloseoutIsRequestedWhen(f, secretary, venue, now);
    var requested := f.(status := ClosureRequested);
    assert Closable(requested, venue, now);
    CloseoutIsCertifiedWhen(requested, dean, false, true, venue, now);
  }
}
