/** What each operation of the closeout service does to the record of an event. */
module CloseoutRules {
  import opened Common
  import opened Ledger
  import opened EventFiles
  import S = SettlementRules

  datatype Blocker =
    | EventCancelled
    | EventNotCompleted
    | ReportNotCertified
    | UnresolvedExpenses
    | UnverifiedIncome
    | AdvanceUnresolved
    | SettlementMissing
    | SettlementNotSettled
    | PaymentOutstanding
    | VenueBookingNotEnded

  /** The end of the active hall booking of the event, if it has one. */
  datatype Venue = NoBooking | BookedUntil(end: int)

  function Also(blockers: seq<Blocker>, failed: bool, b: Blocker): seq<Blocker> {
    if failed then blockers + [b] else blockers
  }

  predicate Outstanding(f: EventFile) {
    && f.settlement.Some? && f.settlement.value.status.Settled?
    && NetCash(f.settlement.value.figures.advance, f.payments) != f.settlement.value.figures.payout
  }

  /** The conditions the settlement service checks, in the order it appends their blockers. */
  const CHECKS: seq<Blocker> :=
    [EventNotCompleted, ReportNotCertified, UnresolvedExpenses, UnverifiedIncome, AdvanceUnresolved,
     SettlementMissing, SettlementNotSettled, PaymentOutstanding]

  predicate Fails(b: Blocker, f: EventFile) {
    match b
    case EventNotCompleted => !f.status.Completed?
    case ReportNotCertified => !ReportCertified(f)
    case UnresolvedExpenses => AnyUnresolved(f.expenses)
    case UnverifiedIncome => AnyRecorded(f.incomes)
    case AdvanceUnresolved => AdvancePending(f.advance)
    case SettlementMissing => f.settlement.None?
    case SettlementNotSettled => f.settlement.Some? && !f.settlement.value.status.Settled?
    case PaymentOutstanding => Outstanding(f)
    case _ => false
  }

  function Failing(f: EventFile, n: nat): seq<Blocker>
    requires n <= |CHECKS|
  {
    if n == 0 then [] else Also(Failing(f, n - 1), Fails(CHECKS[n - 1], f), CHECKS[n - 1])
  }

  /** The settlement service's own evaluation. */
  function FinancialBlockers(f: EventFile): seq<Blocker> { Failing(f, |CHECKS|) }

  /** An event past completion is not blocked for no longer being COMPLETED. */
  predicate PastCompletion(status: EventStatus) { status.ClosureRequested? || status.Sealed() }

  predicate VenueStillBooked(venue: Venue, now: int) { venue.BookedUntil? && venue.end > now }

  /** The financial blockers carried over: without EVENT_NOT_COMPLETED once the event is past
      completion, and without repeating any. */
  function Carried(own: seq<Blocker>, financial: seq<Blocker>, past: bool): seq<Blocker> {
    if financial == [] then own
    else
      var n := |financial| - 1;
      var rest := Carried(own, financial[..n], past);
      Also(rest, !(past && financial[n].EventNotCompleted?) && financial[n] !in rest, financial[n])
  }

  function Blockers(f: EventFile, venue: Venue, now: int): seq<Blocker> {
    var own := Also([], f.status.Cancelled?, EventCancelled);
    var carried := Carried(own, FinancialBlockers(f), PastCompletion(f.status));
    Also(carried, VenueStillBooked(venue, now), VenueBookingNotEnded)
  }

  predicate Eligible(f: EventFile, venue: Venue, now: int) { Blockers(f, venue, now) == [] }

  // ---------- closing ----------

  function RequestCloseout(f: EventFile, actor: Actor, venue: Venue, now: int): Outcome<EventFile> {
    if !S.MayActAsSecretary(actor) then Refused(Forbidden)
    else if f.status.ClosureRequested? then Accepted(f)
    else if !f.status.Completed? then Refused(InvalidTransition)
    else if !Eligible(f, venue, now) then Refused(BusinessRule)
    else Accepted(f.(status := ClosureRequested))
  }

  /** `delegated` is the institutional setting that lets faculty advisors certify closeout. */
  predicate MayCertify(actor: Actor, delegated: bool) {
    || actor.role.DeanStudentAffairs? || actor.role.Principal?
    || (actor.role.FacultyAdvisor? && delegated && actor.advisor)
  }

  function ManifestOf(s: Settlement, certifiedBy: nat): Manifest {
    Manifest(certifiedBy, s.sanction.grant, s.figures.payout, s.figures.balance, s.figures.verified, s.figures.income)
  }

  function CertifyCloseout(f: EventFile, actor: Actor, delegated: bool, venueCleared: bool, venue: Venue, now: int)
    : Outcome<EventFile>
  {
    if !MayCertify(actor, delegated) then Refused(Forbidden)
    else if !venueCleared then Refused(BusinessRule)
    else if !f.status.ClosureRequested? then Refused(InvalidTransition)
    else if !Eligible(f, venue, now) then Refused(BusinessRule)
    else if f.settlement.None? || !f.settlement.value.status.Settled? then Refused(BusinessRule)
    else if !ReportCertified(f) then Refused(BusinessRule)
    else
      var closure := Closure(actor.id, ManifestOf(f.settlement.value, actor.id));
      Accepted(f.(closure := Some(closure), status := Closed))
  }

  function RejectCloseout(f: EventFile, actor: Actor, delegated: bool, reasonGiven: bool): Outcome<EventFile> {
    if !reasonGiven then Refused(BadRequest)
    else if !MayCertify(actor, delegated) then Refused(Forbidden)
    else if !f.status.ClosureRequested? then Refused(InvalidTransition)
    else Accepted(f.(status := Completed))
  }

  // ---------- reopening ----------

  predicate MayPetition(actor: Actor) {
    && !actor.role.SystemAdmin?
    && (actor.role.FinanceOfficer? || (if actor.role.FacultyAdvisor? then actor.advisor else actor.secretary))
  }

  function RequestReopen(f: EventFile, actor: Actor, reasonGiven: bool): Outcome<EventFile> {
    if !reasonGiven then Refused(BadRequest)
    else if !MayPetition(actor) then Refused(Forbidden)
    else if !f.status.Closed? then Refused(InvalidTransition)
    else Accepted(f)
  }

  predicate MayApproveReopen(actor: Actor) { actor.role.DeanStudentAffairs? || actor.role.Principal? }

  function ApproveReopen(f: EventFile, actor: Actor, reasonGiven: bool): Outcome<EventFile> {
    if !reasonGiven then Refused(BadRequest)
    else if !MayApproveReopen(actor) then Refused(Forbidden)
    else if !f.status.Closed? then Refused(InvalidTransition)
    else if f.closure.None? then Refused(BusinessRule)
    else if f.settlement.None? then Refused(BusinessRule)
    else
      var revision := ClosureRevision(|f.closureRevisions| + 1, f.closure.value, f.settlement.value, actor.id);
      S.ReopenSettlement(f.(closureRevisions := f.closureRevisions + [revision], status := Completed),
                         actor, reasonGiven)
  }

  function ArchiveEvent(f: EventFile, actor: Actor): Outcome<EventFile> {
    if !actor.role.SystemAdmin? then Refused(Forbidden)
    else if f.status.Archived? then Accepted(f)
    else if !f.status.Closed? then Refused(InvalidTransition)
    else if f.closure.None? then Refused(BusinessRule)
    else Accepted(f.(status := Archived))
  }

  // ---------- one step ----------

  datatype CloseoutOp =
    | RequestCloseoutOp(actor: Actor, venue: Venue, now: int)
    | CertifyCloseoutOp(actor: Actor, delegated: bool, venueCleared: bool, venue: Venue, now: int)
    | RejectCloseoutOp(actor: Actor, delegated: bool, reasonGiven: bool)
    | RequestReopenOp(actor: Actor, reasonGiven: bool)
    | ApproveReopenOp(actor: Actor, reasonGiven: bool)
    | ArchiveOp(actor: Actor)

  function Apply(f: EventFile, op: CloseoutOp): Outcome<EventFile> {
    match op
    case RequestCloseoutOp(actor, venue, now) => RequestCloseout(f, actor, venue, now)
    case CertifyCloseoutOp(actor, delegated, cleared, venue, now) =>
      CertifyCloseout(f, actor, delegated, cleared, venue, now)
    case RejectCloseoutOp(actor, delegated, reason) => RejectCloseout(f, actor, delegated, reason)
    case RequestReopenOp(actor, reason) => RequestReopen(f, actor, reason)
    case ApproveReopenOp(actor, reason) => ApproveReopen(f, actor, reason)
    case ArchiveOp(actor) => ArchiveEvent(f, actor)
  }

  // ---------- eligibility, read as a condition ----------

  lemma {:induction false} CarriedMeans(own: seq<Blocker>, financial: seq<Blocker>, past: bool, b: Blocker)
    ensures b in Carried(own, financial, past)
       <==> b in own || (b in financial && !(past && b.EventNotCompleted?))
  {
    if financial != [] {
      var n := |financial| - 1;
      CarriedMeans(own, financial[..n], past, b);
      CarriedMeans(own, financial[..n], past, financial[n]);
      assert financial == financial[..n] + [financial[n]];
    }
  }

  lemma {:induction false} FailingMeans(f: EventFile, n: nat, b: Blocker)
    requires n <= |CHECKS|
    ensures b in Failing(f, n) <==> b in CHECKS[..n] && Fails(b, f)
  {
    if n > 0 {
      FailingMeans(f, n - 1, b);
      assert CHECKS[..n] == CHECKS[..n - 1] + [CHECKS[n - 1]];
    }
  }

  /** The condition behind each machine-readable blocker. */
  ghost predicate Blocks(b: Blocker, f: EventFile, venue: Venue, now: int) {
    match b
    case EventCancelled => f.status.Cancelled?
    case EventNotCompleted => !f.status.Completed? && !PastCompletion(f.status)
    case VenueBookingNotEnded => VenueStillBooked(venue, now)
    case _ => Fails(b, f)
  }

  /** A blocker is reported exactly when its condition holds. */
  lemma BlockersMean(f: EventFile, venue: Venue, now: int, b: Blocker)
    ensures b in Blockers(f, venue, now) <==> Blocks(b, f, venue, now)
  {
    var own := Also([], f.status.Cancelled?, EventCancelled);
    CarriedMeans(own, FinancialBlockers(f), PastCompletion(f.status), b);
    FailingMeans(f, |CHECKS|, b);
    assert CHECKS[..|CHECKS|] == CHECKS;
    InChecks(b);
  }

  lemma InChecks(b: Blocker)
    ensures b in CHECKS <==> !b.EventCancelled? && !b.VenueBookingNotEnded?
  {
    match b
    case EventNotCompleted => assert CHECKS[0] == b;
    case ReportNotCertified => assert CHECKS[1] == b;
    case UnresolvedExpenses => assert CHECKS[2] == b;
    case UnverifiedIncome => assert CHECKS[3] == b;
    case AdvanceUnresolved => assert CHECKS[4] == b;
    case SettlementMissing => assert CHECKS[5] == b;
    case SettlementNotSettled => assert CHECKS[6] == b;
    case PaymentOutstanding => assert CHECKS[7] == b;
    case _ =>
  }

  ghost predicate NothingBlocks(f: EventFile, venue: Venue, now: int) {
    && (f.status.Completed? || PastCompletion(f.status))
    && Certifiable(f)
    && !Outstanding(f)
    && !VenueStillBooked(venue, now)
  }

  lemma SomethingBlocks(f: EventFile, venue: Venue, now: int) returns (b: Blocker)
    requires !NothingBlocks(f, venue, now)
    ensures Blocks(b, f, venue, now)
  {
    b := if f.status.Cancelled? then EventCancelled
         else if !f.status.Completed? && !PastCompletion(f.status) then EventNotCompleted
         else if !ReportCertified(f) then ReportNotCertified
         else if AnyUnresolved(f.expenses) then UnresolvedExpenses
         else if AnyRecorded(f.incomes) then UnverifiedIncome
         else if AdvancePending(f.advance) then AdvanceUnresolved
         else if f.settlement.None? then SettlementMissing
         else if !f.settlement.value.status.Settled? then SettlementNotSettled
         else if Outstanding(f) then PaymentOutstanding
         else VenueBookingNotEnded;
  }

  /** The blocker list is empty exactly when delivery is certified, every source is resolved,
      the settlement is settled and paid up, and the hall is free again. */
  lemma EligibleMeans(f: EventFile, venue: Venue, now: int)
    ensures Eligible(f, venue, now) <==> NothingBlocks(f, venue, now)
  {
    var list := Blockers(f, venue, now);
    if list != [] {
      BlockersMean(f, venue, now, list[0]);
    }
    if !NothingBlocks(f, venue, now) {
      var b := SomethingBlocks(f, venue, now);
      BlockersMean(f, venue, now, b);
    }
  }

  /** On a sound record PAYMENT_OUTSTANDING never appears: SETTLED already means paid up. */
  lemma PaymentNeverOutstanding(f: EventFile, venue: Venue, now: int)
    requires Sound(f)
    ensures PaymentOutstanding !in Blockers(f, venue, now)
  {
    BlockersMean(f, venue, now, PaymentOutstanding);
  }

  // ---------- what each step keeps ----------

  lemma ApproveReopenKeepsSound(f: EventFile, actor: Actor, reasonGiven: bool)
    requires Sound(f)
    ensures Sound(After(f, ApproveReopen(f, actor, reasonGiven)))
  {
    var o := ApproveReopen(f, actor, reasonGiven);
    if o.Accepted? {
      var f' := o.state;
      assert S.MayReopen(actor);
      assert SettlementSound(f'.settlement.value, f');
      assert HistorySound(f');
      assert LifecycleSound(f');
    }
  }

  /** A record stays sound when status and closure move within the lifecycle. */
  lemma StatusMoveKeepsSound(f: EventFile, status: EventStatus, closure: Option<Closure>)
    requires Sound(f) && (f.closure.Some? ==> closure.Some?)
    requires LifecycleSound(f.(status := status, closure := closure))
    ensures Sound(f.(status := status, closure := closure))
  {
    var f' := f.(status := status, closure := closure);
    assert MoneySound(f') && HistorySound(f');
  }

  lemma CertifyKeepsSound(f: EventFile, actor: Actor, delegated: bool, venueCleared: bool, venue: Venue, now: int)
    requires Sound(f)
    ensures Sound(After(f, CertifyCloseout(f, actor, delegated, venueCleared, venue, now)))
  {
    var o := CertifyCloseout(f, actor, delegated, venueCleared, venue, now);
    if o.Accepted? {
      EligibleMeans(f, venue, now);
      StatusMoveKeepsSound(f, Closed, o.state.closure);
    }
  }

  lemma OtherStepKeepsSound(f: EventFile, op: CloseoutOp)
    requires Sound(f) && !op.ApproveReopenOp? && !op.CertifyCloseoutOp?
    ensures Sound(After(f, Apply(f, op)))
  {
    var f' := After(f, Apply(f, op));
    assert f' == f.(status := f'.status);
    StatusMoveKeepsSound(f, f'.status, f.closure);
  }

  lemma StepKeepsSound(f: EventFile, op: CloseoutOp)
    requires Sound(f)
    ensures Sound(After(f, Apply(f, op)))
  {
    match op
    case ApproveReopenOp(actor, reason) => ApproveReopenKeepsSound(f, actor, reason);
    case CertifyCloseoutOp(actor, delegated, cleared, venue, now) =>
      CertifyKeepsSound(f, actor, delegated, cleared, venue, now);
    case _ => OtherStepKeepsSound(f, op);
  }

  /** Reopening a closed event always completes: every guard of the nested settlement reopening
      passes, because the event is COMPLETED again by the time it is called. It is refused
      exactly when the reason is missing or the caller is neither Dean nor Principal. */
  lemma ReopeningAlwaysCompletes(f: EventFile, actor: Actor, reasonGiven: bool)
    requires Sound(f) && f.status.Closed?
    ensures var o := ApproveReopen(f, actor, reasonGiven);
            && (o.Accepted? <==> reasonGiven && MayApproveReopen(actor))
            && (o.Accepted? ==>
                 var f' := o.state;
                 && f'.status.Completed?
                 && f'.settlement == Some(f.settlement.value.(status := Reopened))
                 && f'.revisions == f.revisions
                    + [SettlementRevision(|f.revisions| + 1, f.settlement.value, f.payments, actor.id)]
                 && f'.closureRevisions == f.closureRevisions
                    + [ClosureRevision(|f.closureRevisions| + 1, f.closure.value, f.settlement.value, actor.id)]
                 && f'.expenses == f.expenses && f'.incomes == f.incomes && f'.advance == f.advance
                 && f'.payments == f.payments && f'.report == f.report && f'.closure == f.closure)
  {
    assert Certifiable(f) && f.closure.Some?;
  }

  /** Apart from approving a reopening, closeout touches only the status and the closure. */
  lemma StepFrame(f: EventFile, op: CloseoutOp)
    requires !op.ApproveReopenOp?
    ensures var f' := After(f, Apply(f, op));
            f' == f.(status := f'.status, closure := f'.closure)
  {
  }

  lemma ApproveReopenFrame(f: EventFile, actor: Actor, reasonGiven: bool)
    ensures var f' := After(f, ApproveReopen(f, actor, reasonGiven));
            f' == f.(status := f'.status, settlement := f'.settlement, revisions := f'.revisions,
                     closureRevisions := f'.closureRevisions)
  {
  }

  lemma ApproveReopenExtends(f: EventFile, actor: Actor, reasonGiven: bool)
    ensures var f' := After(f, ApproveReopen(f, actor, reasonGiven));
            && f'.payments == f.payments && f.revisions <= f'.revisions
            && f.closureRevisions <= f'.closureRevisions
  {
  }
}
