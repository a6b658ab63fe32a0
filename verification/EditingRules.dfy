/** What editing a proposal does: its fields, its venue request and its budget. */
module EditingRules {
  import opened Common
  import opened Bookings
  import opened Proposals
  import Budgets

  /** System administrators, and active secretaries of the owning club. */
  predicate MayEdit(actor: Actor) {
    actor.role.SystemAdmin? || (actor.role.ClubSecretary? && actor.secretary)
  }

  // ---------- fields ----------

  /** Fields left at None stay as they are. */
  datatype Patch = Patch(
    title: Option<string>,
    description: Option<string>,
    eventType: Option<string>,
    attendees: Option<nat>,
    date: Option<int>,
    guestName: Option<string>,
    guestDesignation: Option<string>,
    guestInstitution: Option<string>,
    academicYear: Option<string>
  )

  function Or<T>(given: Option<T>, current: T): T { if given.Some? then given.value else current }

  function OrElse<T>(given: Option<T>, current: Option<T>): Option<T> { if given.Some? then given else current }

  function Patched(c: Content, p: Patch): Content {
    Content(Or(p.title, c.title), OrElse(p.description, c.description), Or(p.eventType, c.eventType),
            OrElse(p.attendees, c.attendees), OrElse(p.date, c.date), OrElse(p.guestName, c.guestName),
            OrElse(p.guestDesignation, c.guestDesignation), OrElse(p.guestInstitution, c.guestInstitution),
            Or(p.academicYear, c.academicYear))
  }

  function UpdateDraft(p: Proposal, actor: Actor, expected: Option<nat>, patch: Patch): Outcome<Proposal> {
    if expected.Some? && expected.value != p.versionLock then Refused(OptimisticLock)
    else if !p.status.Editable() then Refused(WorkflowState)
    else if !MayEdit(actor) then Refused(Forbidden)
    else Accepted(p.(content := Patched(p.content, patch), versionLock := p.versionLock + 1))
  }

  // ---------- venue request ----------

  /** What the hall table says of the requested hall. */
  datatype Hall = Hall(found: bool, open: bool, capacity: nat)

  /** Minimum notice for a hall booking: seven days, in minutes. */
  const NOTICE := 10080

  predicate TooMany(audience: Option<nat>, attendees: Option<nat>, capacity: nat) {
    var expected := OrElse(audience, attendees);
    expected.Some? && expected.value > capacity
  }

  /** Every confirmed booking, the proposal's own included. */
  function AllBookings(p: Proposal, others: seq<Booking>): seq<Booking> {
    others + (if p.booking.Some? then [p.booking.value] else [])
  }

  function CreateVenue(p: Proposal, actor: Actor, slot: Slot, audience: Option<nat>, hall: Hall, now: int,
                       others: seq<Booking>): Outcome<Proposal>
  {
    if !slot.Proper() then Refused(Unprocessable)
    else if !p.status.Editable() then Refused(WorkflowState)
    else if !MayEdit(actor) then Refused(Forbidden)
    else if !hall.found then Refused(NotFound)
    else if !hall.open then Refused(BadRequest)
    else if TooMany(audience, p.content.attendees, hall.capacity) then Refused(BadRequest)
    else if slot.start < now then Refused(BadRequest)
    else if !actor.role.SystemAdmin? && slot.start - now < NOTICE then Refused(BusinessRule)
    else if p.venue.Some? then Refused(Conflict)
    else if AnyClash(slot, AllBookings(p, others)) then Refused(Conflict)
    else Accepted(p.(venue := Some(VenueRequest(slot, audience, VenuePending))))
  }

  datatype VenuePatch = VenuePatch(
    hall: Option<nat>,
    date: Option<int>,
    start: Option<int>,
    end: Option<int>,
    audience: Option<nat>
  )

  function Moved(s: Slot, v: VenuePatch): Slot {
    Slot(Or(v.hall, s.hall), Or(v.date, s.date), Or(v.start, s.start), Or(v.end, s.end))
  }

  /** The overlap check does not leave out the proposal's own booking. */
  function UpdateVenue(p: Proposal, actor: Actor, v: VenuePatch, hall: Hall, others: seq<Booking>): Outcome<Proposal> {
    if !p.status.Editable() then Refused(WorkflowState)
    else if !MayEdit(actor) then Refused(Forbidden)
    else if p.venue.None? then Refused(NotFound)
    else
      var current := p.venue.value;
      var slot := Moved(current.slot, v);
      if !slot.Proper() then Refused(BadRequest)
      else if !hall.found then Refused(NotFound)
      else if !hall.open then Refused(BadRequest)
      else if TooMany(OrElse(v.audience, current.audience), p.content.attendees, hall.capacity) then Refused(BadRequest)
      else if (v.hall.Some? || v.start.Some? || v.end.Some?) && AnyClash(slot, AllBookings(p, others))
      then Refused(Conflict)
      else Accepted(p.(venue := Some(current.(slot := slot, audience := OrElse(v.audience, current.audience)))))
  }

  /** A booking row still refers to the venue request it was made from, so the request cannot be
      deleted once a booking exists, active or not. */
  function DeleteVenue(p: Proposal, actor: Actor): Outcome<Proposal> {
    if !p.status.Editable() then Refused(WorkflowState)
    else if !MayEdit(actor) then Refused(Forbidden)
    else if p.venue.None? then Refused(NotFound)
    else if p.booking.Some? then Refused(IntegrityViolation)
    else Accepted(p.(venue := None))
  }

  // ---------- budget ----------

  function CreateBudget(p: Proposal, actor: Actor, income: int, contribution: int, items: seq<Budgets.LineItem>)
    : Outcome<Proposal>
  {
    if !p.status.Editable() then Refused(WorkflowState)
    else if !MayEdit(actor) then Refused(Forbidden)
    else if p.budget.Some? then Refused(Conflict)
    else
      var o := Budgets.Create(income, contribution, items);
      if o.Refused? then Refused(o.error) else Accepted(p.(budget := Some(o.state)))
  }

  function EditBudget(p: Proposal, actor: Actor, op: Budgets.BudgetOp): Outcome<Proposal> {
    if !p.status.Editable() then Refused(WorkflowState)
    else if !MayEdit(actor) then Refused(Forbidden)
    else if p.budget.None? then Refused(NotFound)
    else
      var o := Budgets.Apply(p.budget.value, op);
      if o.Refused? then Refused(o.error) else Accepted(p.(budget := Some(o.state)))
  }

  function DeleteBudget(p: Proposal, actor: Actor): Outcome<Proposal> {
    if !p.status.Editable() then Refused(WorkflowState)
    else if !MayEdit(actor) then Refused(Forbidden)
    else if p.budget.None? then Refused(NotFound)
    else Accepted(p.(budget := None))
  }

  /** Finance may mark a budget at any time; the mark is not part of what a version records. */
  function VerifyBudget(p: Proposal, mark: Budgets.FinanceStatus): Outcome<Proposal> {
    if p.budget.None? then Refused(NotFound)
    else Accepted(p.(budget := Some(p.budget.value.(finance := mark))))
  }

  // ---------- one step ----------

  datatype EditingOp =
    | UpdateDraftOp(actor: Actor, expected: Option<nat>, patch: Patch)
    | CreateVenueOp(actor: Actor, slot: Slot, audience: Option<nat>, hall: Hall, now: int)
    | UpdateVenueOp(actor: Actor, venue: VenuePatch, hall: Hall)
    | DeleteVenueOp(actor: Actor)
    | CreateBudgetOp(actor: Actor, income: int, contribution: int, items: seq<Budgets.LineItem>)
    | EditBudgetOp(actor: Actor, edit: Budgets.BudgetOp)
    | DeleteBudgetOp(actor: Actor)
    | VerifyBudgetOp(mark: Budgets.FinanceStatus)

  function Apply(p: Proposal, op: EditingOp, others: seq<Booking>): Outcome<Proposal> {
    match op
    case UpdateDraftOp(actor, expected, patch) => UpdateDraft(p, actor, expected, patch)
    case CreateVenueOp(actor, slot, audience, hall, now) => CreateVenue(p, actor, slot, audience, hall, now, others)
    case UpdateVenueOp(actor, venue, hall) => UpdateVenue(p, actor, venue, hall, others)
    case DeleteVenueOp(actor) => DeleteVenue(p, actor)
    case CreateBudgetOp(actor, income, contribution, items) => CreateBudget(p, actor, income, contribution, items)
    case EditBudgetOp(actor, edit) => EditBudget(p, actor, edit)
    case DeleteBudgetOp(actor) => DeleteBudget(p, actor)
    case VerifyBudgetOp(mark) => VerifyBudget(p, mark)
  }

  /** Editing touches content, venue and budget only; outside DRAFT and REVISION_REQUIRED nothing
      a version records can move. */
  lemma EditFrame(p: Proposal, op: EditingOp, others: seq<Booking>)
    ensures var p' := After(p, Apply(p, op, others));
            && p' == p.(content := p'.content, versionLock := p'.versionLock, venue := p'.venue, budget := p'.budget)
            && (!p.status.Editable() ==> SnapshotOf(p') == SnapshotOf(p) && p'.venue == p.venue)
  {
  }

  lemma EditKeepsSound(p: Proposal, op: EditingOp, others: seq<Booking>)
    requires Sound(p)
    ensures Sound(After(p, Apply(p, op, others)))
  {
    EditFrame(p, op, others);
    EditKeepsBudgetSound(p, op, others);
    EditKeepsVenueSound(p, op, others);
    var p' := After(p, Apply(p, op, others));
    assert Coupled(p') && AsSubmitted(p') && VersionsWithinCap(p');
  }

  lemma EditKeepsBudgetSound(p: Proposal, op: EditingOp, others: seq<Booking>)
    requires p.budget.Some? ==> Budgets.Sound(p.budget.value)
    ensures var b := After(p, Apply(p, op, others)).budget; b.Some? ==> Budgets.Sound(b.value)
  {
    if op.EditBudgetOp? && p.budget.Some? {
      Budgets.StepKeepsSound(p.budget.value, op.edit);
    } else if op.CreateBudgetOp? {
      Budgets.CreateIsSound(op.income, op.contribution, op.items);
    }
  }

  lemma EditKeepsVenueSound(p: Proposal, op: EditingOp, others: seq<Booking>)
    requires VenueSound(p) && AsSubmitted(p)
    ensures VenueSound(After(p, Apply(p, op, others)))
  {
  }

  lemma DecidedContentStays(p: Proposal, op: EditingOp, others: seq<Booking>)
    requires !p.status.Editable()
    ensures var p' := After(p, Apply(p, op, others));
            p'.content == p.content && p'.venue == p.venue && p'.versionLock == p.versionLock
  {
  }

  /** An active booking stands in the way of its own proposal: after a revision the venue request
      cannot be moved within, or onto part of, the slot it already holds. */
  lemma OwnBookingBlocksMove(p: Proposal, actor: Actor, v: VenuePatch, hall: Hall, others: seq<Booking>)
    requires p.venue.Some? && p.booking.Some? && p.booking.value.active
    requires v.hall.Some? || v.start.Some? || v.end.Some?
    requires Overlaps(Moved(p.venue.value.slot, v), p.booking.value.slot)
    ensures UpdateVenue(p, actor, v, hall, others).Refused?
  {
    assert p.booking.value in AllBookings(p, others);
  }

  /** A move that clashes with nobody else and meets every other demand is refused exactly when
      it overlaps the proposal's own active booking. */
  lemma MoveIsBlockedWhen(p: Proposal, actor: Actor, v: VenuePatch, hall: Hall, others: seq<Booking>)
    requires p.status.Editable() && MayEdit(actor) && p.venue.Some? && hall.found && hall.open
    requires v.hall.Some? || v.start.Some? || v.end.Some?
    requires Moved(p.venue.value.slot, v).Proper() && !AnyClash(Moved(p.venue.value.slot, v), others)
    requires !TooMany(OrElse(v.audience, p.venue.value.audience), p.content.attendees, hall.capacity)
    ensures UpdateVenue(p, actor, v, hall, others) == Refused(Conflict)
       <==> p.booking.Some? && Clashes(Moved(p.venue.value.slot, v), p.booking.value)
  {
    if p.booking.Some? { assert p.booking.value in AllBookings(p, others); }
  }
}
