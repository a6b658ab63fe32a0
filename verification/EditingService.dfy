/** Editing a proposal, its venue request and its budget over the mutable row. */
module EditingService {
  import opened Common
  import opened Bookings
  import opened Proposals
  import opened ProposalStore
  import Ed = EditingRules
  import Budgets
  import Ledger

  // ---------- fields ----------

  /** Every given field is assigned, in turn. */
  method ApplyPatch(content: Content, p: Ed.Patch) returns (c: Content)
    ensures c == Ed.Patched(content, p)
  {
    c := content;
    if p.title.Some? { c := c.(title := p.title.value); }
    if p.description.Some? { c := c.(description := p.description); }
    if p.eventType.Some? { c := c.(eventType := p.eventType.value); }
    if p.attendees.Some? { c := c.(attendees := p.attendees); }
    if p.date.Some? { c := c.(date := p.date); }
    if p.guestName.Some? { c := c.(guestName := p.guestName); }
    if p.guestDesignation.Some? { c := c.(guestDesignation := p.guestDesignation); }
    if p.guestInstitution.Some? { c := c.(guestInstitution := p.guestInstitution); }
    if p.academicYear.Some? { c := c.(academicYear := p.academicYear.value); }
  }

  method UpdateDraft(row: ProposalRow, actor: Actor, expected: Option<nat>, patch: Ed.Patch) returns (r: Reply)
    modifies row`content, row`versionLock
    ensures r == Ed.UpdateDraft(old(row.Value()), actor, expected, patch).Reply()
    ensures row.Value() == After(old(row.Value()), Ed.UpdateDraft(old(row.Value()), actor, expected, patch))
  {
    if expected.Some? && row.versionLock != expected.value { return Failed(OptimisticLock); }
    if !row.status.Draft? && !row.status.RevisionRequired? { return Failed(WorkflowState); }
    if !Ed.MayEdit(actor) { return Failed(Forbidden); }
    var patched := ApplyPatch(row.content, patch);
    row.content := patched;
    row.versionLock := row.versionLock + 1;
    return Done;
  }

  // ---------- venue request ----------

  method CreateVenueRequest(row: ProposalRow, actor: Actor, slot: Slot, audience: Option<nat>, hall: Ed.Hall,
                            now: int, others: seq<Booking>) returns (r: Reply)
    modifies row`venue
    ensures r == Ed.CreateVenue(old(row.Value()), actor, slot, audience, hall, now, others).Reply()
    ensures row.Value()
         == After(old(row.Value()), Ed.CreateVenue(old(row.Value()), actor, slot, audience, hall, now, others))
  {
    if slot.end <= slot.start { return Failed(Unprocessable); }
    if !row.status.Draft? && !row.status.RevisionRequired? { return Failed(WorkflowState); }
    if !Ed.MayEdit(actor) { return Failed(Forbidden); }
    if !hall.found { return Failed(NotFound); }
    if !hall.open { return Failed(BadRequest); }
    if Ed.TooMany(audience, row.content.attendees, hall.capacity) { return Failed(BadRequest); }
    if slot.start - now < 0 { return Failed(BadRequest); }
    if !actor.role.SystemAdmin? && slot.start - now < Ed.NOTICE { return Failed(BusinessRule); }
    if row.venue.Some? { return Failed(Conflict); }
    if AnyClash(slot, Ed.AllBookings(row.Value(), others)) { return Failed(Conflict); }
    row.venue := Some(VenueRequest(slot, audience, VenuePending));
    return Done;
  }

  method UpdateVenueRequest(row: ProposalRow, actor: Actor, v: Ed.VenuePatch, hall: Ed.Hall, others: seq<Booking>)
    returns (r: Reply)
    modifies row`venue
    ensures r == Ed.UpdateVenue(old(row.Value()), actor, v, hall, others).Reply()
    ensures row.Value() == After(old(row.Value()), Ed.UpdateVenue(old(row.Value()), actor, v, hall, others))
  {
    if !row.status.Draft? && !row.status.RevisionRequired? { return Failed(WorkflowState); }
    if !Ed.MayEdit(actor) { return Failed(Forbidden); }
    if row.venue.None? { return Failed(NotFound); }
    var venue := row.venue.value;
    var target := Ed.Moved(venue.slot, v);
    if target.end <= target.start { return Failed(BadRequest); }
    if !hall.found { return Failed(NotFound); }
    if !hall.open { return Failed(BadRequest); }
    var audience := if v.audience.Some? then v.audience else venue.audience;
    if Ed.TooMany(audience, row.content.attendees, hall.capacity) { return Failed(BadRequest); }
    if v.hall.Some? || v.start.Some? || v.end.Some? {
      if AnyClash(target, Ed.AllBookings(row.Value(), others)) { return Failed(Conflict); }
    }
    row.venue := Some(venue.(slot := target, audience := audience));
    return Done;
  }

  method DeleteVenueRequest(row: ProposalRow, actor: Actor) returns (r: Reply)
    modifies row`venue
    ensures r == Ed.DeleteVenue(old(row.Value()), actor).Reply()
    ensures row.Value() == After(old(row.Value()), Ed.DeleteVenue(old(row.Value()), actor))
  {
    if !row.status.Draft? && !row.status.RevisionRequired? { return Failed(WorkflowState); }
    if !Ed.MayEdit(actor) { return Failed(Forbidden); }
    if row.venue.None? { return Failed(NotFound); }
    if row.booking.Some? { return Failed(IntegrityViolation); }
    row.venue := None;
    return Done;
  }

  // ---------- budget ----------

  /** The total of a list of items, or nothing when an item is not positive. */
  method TotalItems(items: seq<Budgets.LineItem>) returns (total: Option<int>)
    ensures total.None? <==> exists i :: i in items && i.estimate.amount <= 0
    ensures total.Some? ==> total.value == Sum(items, Budgets.AmountOf)
  {
    var sum := 0;
    for k := 0 to |items|
      invariant sum == Sum(items[..k], Budgets.AmountOf)
      invariant forall j :: 0 <= j < k ==> items[j].estimate.amount > 0
    {
      assert items[..k + 1][..k] == items[..k];
      if items[k].estimate.amount <= 0 { return None; }
      sum := sum + items[k].estimate.amount;
    }
    assert items[..|items|] == items;
    return Some(sum);
  }

  method CreateBudgetProposal(row: ProposalRow, actor: Actor, income: int, contribution: int,
                              items: seq<Budgets.LineItem>) returns (r: Reply)
    modifies row`budget
    ensures r == Ed.CreateBudget(old(row.Value()), actor, income, contribution, items).Reply()
    ensures row.Value()
         == After(old(row.Value()), Ed.CreateBudget(old(row.Value()), actor, income, contribution, items))
  {
    if !row.status.Draft? && !row.status.RevisionRequired? { return Failed(WorkflowState); }
    if !Ed.MayEdit(actor) { return Failed(Forbidden); }
    if row.budget.Some? { return Failed(Conflict); }
    if income < 0 || contribution < 0 { return Failed(Unprocessable); }
    var total := TotalItems(items);
    if total.None? { return Failed(Unprocessable); }
    if contribution > Budgets.CAP { return Failed(CapExceeded); }
    if |items| > 0 && income + contribution > total.value { return Failed(BadRequest); }
    if !Ledger.UniqueIds(items, Budgets.ItemId) { return Failed(IntegrityViolation); }
    row.budget := Some(Budgets.Budget(income, contribution, total.value, items, Budgets.FinancePending));
    return Done;
  }

  method EditBudget(row: ProposalRow, actor: Actor, op: Budgets.BudgetOp) returns (r: Reply)
    modifies row`budget
    ensures r == Ed.EditBudget(old(row.Value()), actor, op).Reply()
    ensures row.Value() == After(old(row.Value()), Ed.EditBudget(old(row.Value()), actor, op))
  {
    if !row.status.Draft? && !row.status.RevisionRequired? { return Failed(WorkflowState); }
    if !Ed.MayEdit(actor) { return Failed(Forbidden); }
    if row.budget.None? { return Failed(NotFound); }
    var budget := row.budget.value;
    match op
    case UpdateHeader(_, _) =>
      r := UpdateHeader(row, op);
    case AddLine(item) =>
      if item.estimate.amount <= 0 { return Failed(Unprocessable); }
      if Ledger.Find(budget.items, Budgets.ItemId, item.id).Some? { return Failed(IntegrityViolation); }
      Recalculate(row, budget.items + [item]);
      return Done;
    case UpdateLine(id, estimate) =>
      if estimate.amount <= 0 { return Failed(Unprocessable); }
      var at := Ledger.Find(budget.items, Budgets.ItemId, id);
      if at.None? { return Failed(NotFound); }
      Recalculate(row, budget.items[at.value := Budgets.LineItem(id, estimate)]);
      return Done;
    case DeleteLine(id) =>
      var at := Ledger.Find(budget.items, Budgets.ItemId, id);
      if at.None? { return Failed(NotFound); }
      Recalculate(row, RemoveAt(budget.items, at.value));
      return Done;
  }

  method UpdateHeader(row: ProposalRow, op: Budgets.BudgetOp) returns (r: Reply)
    requires row.budget.Some? && op.UpdateHeader?
    modifies row`budget
    ensures r == Budgets.Apply(old(row.budget).value, op).Reply()
    ensures row.budget == Some(After(old(row.budget).value, Budgets.Apply(old(row.budget).value, op)))
  {
    var budget := row.budget.value;
    var income := if op.income.Some? then op.income.value else budget.income;
    var contribution := if op.contribution.Some? then op.contribution.value else budget.contribution;
    if income < 0 || contribution < 0 { return Failed(Unprocessable); }
    if contribution > Budgets.CAP { return Failed(CapExceeded); }
    if budget.total > 0 && income + contribution > budget.total { return Failed(BadRequest); }
    row.budget := Some(budget.(income := income, contribution := contribution));
    return Done;
  }

  /** Replaces the items and reassigns the total expected expenditure, summed afresh. */
  method Recalculate(row: ProposalRow, items: seq<Budgets.LineItem>)
    requires row.budget.Some?
    modifies row`budget
    ensures row.budget == Some(old(row.budget).value.(items := items, total := Sum(items, Budgets.AmountOf)))
  {
    var total := 0;
    for k := 0 to |items|
      invariant total == Sum(items[..k], Budgets.AmountOf)
      invariant row.budget == old(row.budget)
    {
      assert items[..k + 1][..k] == items[..k];
      total := total + items[k].estimate.amount;
    }
    assert items[..|items|] == items;
    row.budget := Some(row.budget.value.(items := items, total := total));
  }

  method DeleteBudgetProposal(row: ProposalRow, actor: Actor) returns (r: Reply)
    modifies row`budget
    ensures r == Ed.DeleteBudget(old(row.Value()), actor).Reply()
    ensures row.Value() == After(old(row.Value()), Ed.DeleteBudget(old(row.Value()), actor))
  {
    if !row.status.Draft? && !row.status.RevisionRequired? { return Failed(WorkflowState); }
    if !Ed.MayEdit(actor) { return Failed(Forbidden); }
    if row.budget.None? { return Failed(NotFound); }
    row.budget := None;
    return Done;
  }

  method VerifyBudget(row: ProposalRow, mark: Budgets.FinanceStatus) returns (r: Reply)
    modifies row`budget
    ensures r == Ed.VerifyBudget(old(row.Value()), mark).Reply()
    ensures row.Value() == After(old(row.Value()), Ed.VerifyBudget(old(row.Value()), mark))
  {
    if row.budget.None? { return Failed(NotFound); }
    row.budget := Some(row.budget.value.(finance := mark));
    return Done;
  }
}
