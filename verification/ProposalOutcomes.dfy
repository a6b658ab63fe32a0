/** What a caller of the proposal services can rely on: exactly when each operation goes through,
    and what the proposal then says, field by field. */
module ProposalOutcomes {
  import opened Common
  import opened Bookings
  import opened Proposals
  import opened EditingRules
  import opened WorkflowRules
  import Budgets
  import Ledger

  /** System administrators, and the active secretary of the owning club. */
  ghost predicate ByEditor(actor: Actor) {
    actor.role == SystemAdmin || (actor.role == ClubSecretary && actor.secretary)
  }

  ghost predicate Open(p: Proposal) { p.status == Draft || p.status == RevisionRequired }

  // ---------- submission ----------

  /** A version that records the proposal as it stands, figure by figure and item by item. */
  ghost predicate Records(v: Version, p: Proposal) {
    var s := v.snapshot;
    && s.content == p.content
    && (s.venue.Some? <==> p.venue.Some?)
    && (p.venue.Some? ==> s.venue.value.0 == p.venue.value.slot && s.venue.value.1 == p.venue.value.audience)
    && (s.budget.Some? <==> p.budget.Some?)
    && (p.budget.Some? ==> RecordsBudget(s.budget.value, p.budget.value))
  }

  ghost predicate RecordsBudget(figures: (int, int, int, seq<Budgets.Estimate>), b: Budgets.Budget) {
    && figures.0 == b.income && figures.1 == b.contribution && figures.2 == b.total
    && |figures.3| == |b.items|
    && forall k :: 0 <= k < |b.items| ==> figures.3[k] == b.items[k].estimate
  }

  lemma SnapshotRecords(p: Proposal, v: Version)
    ensures v.snapshot == SnapshotOf(p) ==> Records(v, p)
  {
  }

  /** Submitting appends one version that records the live proposal, and changes no field of it. */
  lemma SubmissionRecordsProposal(p: Proposal, actor: Actor, template: Template)
    ensures var o := SubmitProposal(p, actor, template);
            && (o.Accepted? <==> ByEditor(actor) && Open(p))
            && (o.Accepted? ==>
                  var p' := o.state;
                  && p' == p.(status := Submitted, currentVersion := p.currentVersion + 1,
                              versionLock := p.versionLock + 1, versions := p'.versions,
                              instances := p'.instances, workflow := p'.workflow)
                  && |p'.versions| == |p.versions| + 1 && p'.versions[..|p.versions|] == p.versions
                  && var v := p'.versions[|p.versions|];
                     v.number == p.currentVersion + 1 && v.submittedBy == actor.id && Records(v, p))
            && (o.Refused? ==>
                  match o.error
                  case WorkflowState => !Open(p)
                  case Forbidden => !ByEditor(actor)
                  case _ => false)
  {
    var o := SubmitProposal(p, actor, template);
    if o.Accepted? { SnapshotRecords(p, o.state.versions[|p.versions|]); }
  }

  /** It supersedes the running instance, and starts and links one with a pending step per stage. */
  lemma SubmissionStartsWorkflow(p: Proposal, actor: Actor, template: Template)
    requires Coupled(p) && SubmitProposal(p, actor, template).Accepted?
    ensures var p' := SubmitProposal(p, actor, template).state;
            && |p'.instances| == |p.instances| + 1 && p'.workflow == Some(|p.instances|)
            && (forall n :: 0 <= n < |p.instances| ==> p'.instances[n] == p.instances[n].(status := Superseded))
            && var i := p'.instances[|p.instances|];
               && i.version == p.currentVersion + 1 && i.pointer == 1 && i.status == InProgress
               && |i.steps| == |template|
               && forall k :: 0 <= k < |template| ==>
                    i.steps[k]
                    == WorkflowStep(template[k].role, template[k].assignee, Pending, p.currentVersion + 1, None)
  {
    SupersedingIsSound(p);
  }

  // ---------- review ----------

  /** The step of this order awaits this actor: pending, next in the running instance, not the
      owner's own proposal, and the actor is assigned to it or holds its role. On the first step
      the role does not count, but a system administrator may stand in. */
  ghost predicate AwaitsActor(p: Proposal, inst: nat, order: nat, actor: Actor) {
    && inst < |p.instances| && 1 <= order <= |p.instances[inst].steps|
    && var i, step := p.instances[inst], p.instances[inst].steps[order - 1];
       && step.status == Pending && i.status == InProgress && i.pointer == order
       && actor.id != p.owner
       && (|| actor.id == step.assignee
           || (order == 1 && actor.role == SystemAdmin)
           || (order > 1 && actor.role == step.role))
  }

  lemma GuardsMean(p: Proposal, inst: nat, order: nat, actor: Actor)
    ensures ActionError(p, inst, order, actor) == None <==> AwaitsActor(p, inst, order, actor)
    ensures match ActionError(p, inst, order, actor)
            case None => true
            case Some(NotFound) => inst >= |p.instances| || order == 0 || order > |p.instances[inst].steps|
            case Some(WorkflowState) =>
              && inst < |p.instances| && 1 <= order <= |p.instances[inst].steps|
              && (|| p.instances[inst].steps[order - 1].status != Pending || p.instances[inst].status != InProgress
                  || p.instances[inst].pointer != order)
            case Some(Forbidden) => !AwaitsActor(p, inst, order, actor)
            case _ => false
  {
  }

  /** The awaited step carries its outcome, who acted, and the version that was reviewed. */
  ghost predicate StepMarked(i: Instance, i': Instance, order: nat, status: StepStatus, actor: Actor)
    requires 1 <= order <= |i.steps|
  {
    && |i'.steps| == |i.steps| && i'.version == i.version
    && (forall k :: 0 <= k < |i.steps| && k != order - 1 ==> i'.steps[k] == i.steps[k])
    && var step := i.steps[order - 1];
       i'.steps[order - 1] == WorkflowStep(step.role, step.assignee, status, i.version, Some(actor.id))
  }

  ghost predicate OnlyInstance(p: Proposal, p': Proposal, inst: nat)
    requires inst < |p.instances|
  {
    && |p'.instances| == |p.instances|
    && forall n :: 0 <= n < |p.instances| && n != inst ==> p'.instances[n] == p.instances[n]
  }

  ghost predicate Busy(slot: Slot, others: seq<Booking>) {
    exists b :: b in others && b.active && Overlaps(slot, b.slot)
  }

  ghost predicate BusyThatDate(slot: Slot, others: seq<Booking>) {
    exists b :: b in others && b.active && Overlaps(slot, b.slot) && b.slot.date == slot.date
  }

  /** The second step can book: nothing else that date, and the slot to be held is free, or held
      already. */
  ghost predicate HallFree(p: Proposal, others: seq<Booking>) {
    p.venue.Some? ==>
      && !BusyThatDate(p.venue.value.slot, others)
      && match p.booking
         case None => !Busy(p.venue.value.slot, others)
         case Some(b) => b.active || !Busy(b.slot, others)
  }

  lemma BookingMeans(p: Proposal, others: seq<Booking>)
    ensures BookHall(p, others).Accepted? <==> HallFree(p, others)
  {
    if p.venue.Some? {
      assert DateConflict(p.venue.value.slot, others) <==> BusyThatDate(p.venue.value.slot, others);
      assert AnyClash(p.venue.value.slot, others) <==> Busy(p.venue.value.slot, others);
      if p.booking.Some? {
        assert AnyClash(p.booking.value.slot, others) <==> Busy(p.booking.value.slot, others);
      }
    }
  }

  lemma StepIsApprovedWhen(p: Proposal, inst: nat, order: nat, actor: Actor, others: seq<Booking>)
    ensures var o := ApproveStep(p, inst, order, actor, others);
            && (o.Accepted? <==> AwaitsActor(p, inst, order, actor) && (order == 2 ==> HallFree(p, others)))
            && (o.Refused? && AwaitsActor(p, inst, order, actor) ==>
                  order == 2 && p.venue.Some?
                  && o.error == (if BusyThatDate(p.venue.value.slot, others) then Conflict else IntegrityViolation))
  {
    GuardsMean(p, inst, order, actor);
    if AwaitsActor(p, inst, order, actor) {
      var marked := p.(instances := p.instances[inst := Marked(p.instances[inst], order, StepApproved, actor.id)]);
      BookingMeans(marked, others);
      assert HallFree(marked, others) <==> HallFree(p, others);
    }
  }

  /** The workflow after an approval: the step marked and the pointer moved on, or, after the last
      step, the instance completed and the proposal approved. */
  lemma ApprovalMovesWorkflow(p: Proposal, inst: nat, order: nat, actor: Actor, others: seq<Booking>)
    requires ApproveStep(p, inst, order, actor, others).Accepted?
    ensures inst < |p.instances| && 1 <= order <= |p.instances[inst].steps|
    ensures var p', i := ApproveStep(p, inst, order, actor, others).state, p.instances[inst];
            && OnlyInstance(p, p', inst) && StepMarked(i, p'.instances[inst], order, StepApproved, actor)
            && (if order < |i.steps|
                then p'.instances[inst].pointer == order + 1 && p'.instances[inst].status == i.status
                     && p'.status == (if p.status == Submitted then InReview else p.status)
                     && p'.confirmed == p.confirmed
                else p'.instances[inst].pointer == i.pointer && p'.instances[inst].status == Completed
                     && p'.status == Approved)
            && p' == p.(instances := p'.instances, status := p'.status, venue := p'.venue, booking := p'.booking,
                        budget := p'.budget, confirmed := p'.confirmed)
  {
    GuardsMean(p, inst, order, actor);
  }

  /** The second step approves the venue request and holds its slot, or the slot booked before; the
      third marks the budget verified; no other step touches venue, booking or budget. */
  lemma ApprovalInterlocks(p: Proposal, inst: nat, order: nat, actor: Actor, others: seq<Booking>)
    requires ApproveStep(p, inst, order, actor, others).Accepted?
    ensures var p' := ApproveStep(p, inst, order, actor, others).state;
            && (if order == 2 && p.venue.Some?
                then && p'.venue == Some(VenueRequest(p.venue.value.slot, p.venue.value.audience, VenueApproved))
                     && p'.booking == Some(Booking(if p.booking.Some? then p.booking.value.slot else p.venue.value.slot,
                                                   true))
                else p'.venue == p.venue && p'.booking == p.booking)
            && (if order == 3 && p.budget.Some?
                then p'.budget == Some(p.budget.value.(finance := Budgets.FinanceVerified))
                else p'.budget == p.budget)
  {
  }

  /** Under review the latest version is the current one, and records the proposal as it stands. */
  lemma LatestVersionRecords(p: Proposal)
    requires Sound(p) && (p.status == Submitted || p.status == InReview)
    ensures p.versions != [] && Latest(p.versions) == Some(p.versions[|p.versions| - 1])
    ensures p.versions[|p.versions| - 1].number == p.currentVersion && Records(p.versions[|p.versions| - 1], p)
  {
    LatestIsLast(p.versions);
    SnapshotRecords(p, p.versions[|p.versions| - 1]);
  }

  lemma LastApprovalSlot(p: Proposal, inst: nat, actor: Actor, others: seq<Booking>)
    requires Sound(p) && inst < |p.instances|
    requires ApproveStep(p, inst, |p.instances[inst].steps|, actor, others).Accepted?
    ensures var p' := ApproveStep(p, inst, |p.instances[inst].steps|, actor, others).state;
            p'.confirmed.Some? ==>
              p'.confirmed.value.slot == (if p'.booking.Some? then Some(p'.booking.value.slot)
                                          else if p.venue.Some? then Some(p.venue.value.slot) else None)
  {
    var order := |p.instances[inst].steps|;
    ApproveKeepsSound(p, inst, order, actor, others);
    ApprovalInterlocks(p, inst, order, actor, others);
  }

  lemma LastApprovalTakesLatest(p: Proposal, inst: nat, actor: Actor, others: seq<Booking>)
    requires inst < |p.instances| && p.confirmed == None && Latest(p.versions).Some?
    requires ApproveStep(p, inst, |p.instances[inst].steps|, actor, others).Accepted?
    ensures var p' := ApproveStep(p, inst, |p.instances[inst].steps|, actor, others).state;
            && p'.confirmed.Some?
            && p'.confirmed.value.version == Latest(p.versions).value.number
            && p'.confirmed.value.snapshot == Latest(p.versions).value.snapshot
  {
  }

  /** The last approval confirms the event from the latest version, in the booked slot if there is
      one, else in the slot asked for. */
  lemma LastApprovalConfirmsEvent(p: Proposal, inst: nat, actor: Actor, others: seq<Booking>)
    requires Sound(p) && inst < |p.instances|
    requires ApproveStep(p, inst, |p.instances[inst].steps|, actor, others).Accepted?
    ensures var p' := ApproveStep(p, inst, |p.instances[inst].steps|, actor, others).state;
            && p'.confirmed.Some? && p.versions != []
            && var e, v := p'.confirmed.value, p.versions[|p.versions| - 1];
               && e.version == v.number == p.currentVersion && e.snapshot == v.snapshot && Records(v, p)
               && e.slot == (if p'.booking.Some? then Some(p'.booking.value.slot)
                             else if p.venue.Some? then Some(p.venue.value.slot) else None)
  {
    var order := |p.instances[inst].steps|;
    ActionIsOnAwaitedStep(p, inst, order, actor);
    LatestVersionRecords(p);
    LastApprovalTakesLatest(p, inst, actor, others);
    LastApprovalSlot(p, inst, actor, others);
  }

  lemma StepIsRejectedWhen(p: Proposal, inst: nat, order: nat, actor: Actor, reasonGiven: bool)
    ensures var o := RejectStep(p, inst, order, actor, reasonGiven);
            && (o.Accepted? <==> reasonGiven && AwaitsActor(p, inst, order, actor))
            && (o.Accepted? ==>
                  var p', i := o.state, p.instances[inst];
                  && OnlyInstance(p, p', inst) && StepMarked(i, p'.instances[inst], order, StepRejected, actor)
                  && p'.instances[inst].status == InstanceRejected && p'.instances[inst].pointer == i.pointer
                  && p' == p.(instances := p'.instances, status := Rejected, venue := p'.venue, booking := p'.booking)
                  && p'.venue == (if p.venue == None then None
                                  else Some(VenueRequest(p.venue.value.slot, p.venue.value.audience, VenueRejected)))
                  && p'.booking == (if p.booking == None then None else Some(Booking(p.booking.value.slot, false))))
  {
    GuardsMean(p, inst, order, actor);
  }

  lemma RevisionIsRequestedWhen(p: Proposal, inst: nat, order: nat, actor: Actor, reasonGiven: bool)
    ensures var o := RequestRevision(p, inst, order, actor, reasonGiven);
            && (o.Accepted? <==> reasonGiven && AwaitsActor(p, inst, order, actor))
            && (o.Accepted? ==>
                  var p', i := o.state, p.instances[inst];
                  && OnlyInstance(p, p', inst) && StepMarked(i, p'.instances[inst], order, RevisionRequested, actor)
                  && p'.instances[inst].status == i.status && p'.instances[inst].pointer == i.pointer
                  && p' == p.(instances := p'.instances, status := RevisionRequired))
  {
    GuardsMean(p, inst, order, actor);
  }

  /** An action that is refused for no missing reason is refused by the guards. */
  lemma ReviewRefusalMeans(p: Proposal, inst: nat, order: nat, actor: Actor, reasonGiven: bool)
    ensures var reject, revise := RejectStep(p, inst, order, actor, reasonGiven),
                                  RequestRevision(p, inst, order, actor, reasonGiven);
            && (!reasonGiven ==> reject == Refused(BadRequest) == revise)
            && (reasonGiven && reject.Refused? ==> Some(reject.error) == ActionError(p, inst, order, actor))
            && (reasonGiven && revise.Refused? ==> Some(revise.error) == ActionError(p, inst, order, actor))
  {
  }

  /** Cancelling stops the linked running workflow, frees the hall and withdraws an approved venue. */
  lemma ProposalIsCancelledWhen(p: Proposal, actor: Actor)
    requires Coupled(p)
    ensures var o := CancelProposal(p, actor);
            && (o.Accepted? <==> ByEditor(actor) && p.status !in {Approved, Rejected, Cancelled})
            && (o.Accepted? ==>
                  var p' := o.state;
                  && p' == p.(instances := p'.instances, booking := p'.booking, venue := p'.venue, status := Cancelled,
                              versionLock := p.versionLock + 1)
                  && p'.booking == (if p.booking == None then None else Some(Booking(p.booking.value.slot, false)))
                  && p'.venue == (if p.venue.Some? && p.venue.value.status == VenueApproved
                                  then Some(p.venue.value.(status := VenueRejected)) else p.venue)
                  && StopsWorkflow(p, p'))
            && (o.Refused? ==>
                  match o.error
                  case Forbidden => !ByEditor(actor)
                  case WorkflowState => p.status in {Approved, Rejected, Cancelled}
                  case _ => false)
  {
  }

  ghost predicate StopsWorkflow(p: Proposal, p': Proposal) {
    && |p'.instances| == |p.instances|
    && (forall n :: 0 <= n < |p.instances| - 1 ==> p'.instances[n] == p.instances[n])
    && (p.instances != [] ==>
          var i, i' := p.instances[|p.instances| - 1], p'.instances[|p.instances| - 1];
          && i'.status == InstanceCancelled && i'.pointer == i.pointer && i'.version == i.version
          && |i'.steps| == |i.steps|
          && forall k :: 0 <= k < |i.steps| ==>
               i'.steps[k] == (if i.steps[k].status == Pending then i.steps[k].(status := Skipped) else i.steps[k]))
  }

  // ---------- editing ----------

  ghost predicate Given<T>(given: Option<T>, before: T, after: T) {
    after == (if given.Some? then given.value else before)
  }

  ghost predicate GivenOption<T>(given: Option<T>, before: Option<T>, after: Option<T>) {
    after == (if given.Some? then given else before)
  }

  /** Each field is the one given, or else what it was. */
  ghost predicate PatchedAs(c: Content, patch: Patch, c': Content) {
    && Given(patch.title, c.title, c'.title) && GivenOption(patch.description, c.description, c'.description)
    && Given(patch.eventType, c.eventType, c'.eventType) && GivenOption(patch.attendees, c.attendees, c'.attendees)
    && GivenOption(patch.date, c.date, c'.date) && GivenOption(patch.guestName, c.guestName, c'.guestName)
    && GivenOption(patch.guestDesignation, c.guestDesignation, c'.guestDesignation)
    && GivenOption(patch.guestInstitution, c.guestInstitution, c'.guestInstitution)
    && Given(patch.academicYear, c.academicYear, c'.academicYear)
  }

  lemma DraftIsUpdatedWhen(p: Proposal, actor: Actor, expected: Option<nat>, patch: Patch)
    ensures var o := UpdateDraft(p, actor, expected, patch);
            var current := expected == None || expected == Some(p.versionLock);
            && (o.Accepted? <==> current && Open(p) && ByEditor(actor))
            && (o.Accepted? ==>
                  && PatchedAs(p.content, patch, o.state.content)
                  && o.state == p.(content := o.state.content, versionLock := p.versionLock + 1))
            && (o.Refused? ==>
                  match o.error
                  case OptimisticLock => !current
                  case WorkflowState => !Open(p)
                  case Forbidden => !ByEditor(actor)
                  case _ => false)
  {
  }

  /** Of two editors who read the same lock, only the first gets through. */
  lemma SecondEditorIsStale(p: Proposal, a: Actor, b: Actor, first: Patch, second: Patch)
    requires UpdateDraft(p, a, Some(p.versionLock), first).Accepted?
    ensures UpdateDraft(UpdateDraft(p, a, Some(p.versionLock), first).state, b, Some(p.versionLock), second)
            == Refused(OptimisticLock)
  {
  }

  ghost predicate Seats(audience: Option<nat>, attendees: Option<nat>, capacity: nat) {
    match audience
    case Some(n) => n <= capacity
    case None => attendees.Some? ==> attendees.value <= capacity
  }

  ghost predicate Taken(p: Proposal, slot: Slot, others: seq<Booking>) {
    Busy(slot, others) || (p.booking.Some? && p.booking.value.active && Overlaps(slot, p.booking.value.slot))
  }

  lemma TakenMeans(p: Proposal, slot: Slot, others: seq<Booking>)
    ensures AnyClash(slot, AllBookings(p, others)) <==> Taken(p, slot, others)
  {
    var all := AllBookings(p, others);
    if Busy(slot, others) {
      var b :| b in others && b.active && Overlaps(slot, b.slot);
      assert b in all && Clashes(slot, b);
    }
    if p.booking.Some? { assert p.booking.value in all; }
  }

  /** Seven days' notice, in minutes, unless an administrator asks. */
  lemma VenueIsRequestedWhen(p: Proposal, actor: Actor, slot: Slot, audience: Option<nat>, hall: Hall, now: int,
                             others: seq<Booking>)
    ensures var o := CreateVenue(p, actor, slot, audience, hall, now, others);
            && (o.Accepted? <==>
                  && slot.start < slot.end && Open(p) && ByEditor(actor) && hall.found && hall.open
                  && Seats(audience, p.content.attendees, hall.capacity)
                  && now <= slot.start && (actor.role == SystemAdmin || now + 7 * 24 * 60 <= slot.start)
                  && p.venue == None && !Taken(p, slot, others))
            && (o.Accepted? ==> o.state == p.(venue := Some(VenueRequest(slot, audience, VenuePending))))
            && (o.Refused? ==>
                  match o.error
                  case Unprocessable => slot.end <= slot.start
                  case WorkflowState => !Open(p)
                  case Forbidden => !ByEditor(actor)
                  case NotFound => !hall.found
                  case BadRequest =>
                    !hall.open || !Seats(audience, p.content.attendees, hall.capacity) || slot.start < now
                  case BusinessRule => actor.role != SystemAdmin && slot.start < now + 7 * 24 * 60
                  case Conflict => p.venue.Some? || Taken(p, slot, others)
                  case _ => false)
  {
    TakenMeans(p, slot, others);
  }

  /** The slot a change asks for, part by part. */
  ghost predicate ChangedSlot(s: Slot, v: VenuePatch, s': Slot) {
    Given(v.hall, s.hall, s'.hall) && Given(v.date, s.date, s'.date)
    && Given(v.start, s.start, s'.start) && Given(v.end, s.end, s'.end)
  }

  lemma VenueIsMovedWhen(p: Proposal, actor: Actor, v: VenuePatch, hall: Hall, others: seq<Booking>, slot: Slot)
    requires p.venue.Some? && ChangedSlot(p.venue.value.slot, v, slot)
    ensures var o := UpdateVenue(p, actor, v, hall, others);
            var audience := if v.audience.Some? then v.audience else p.venue.value.audience;
            var moves := v.hall.Some? || v.start.Some? || v.end.Some?;
            && (o.Accepted? <==>
                  && Open(p) && ByEditor(actor) && slot.start < slot.end && hall.found && hall.open
                  && Seats(audience, p.content.attendees, hall.capacity) && (moves ==> !Taken(p, slot, others)))
            && (o.Accepted? ==> o.state == p.(venue := Some(VenueRequest(slot, audience, p.venue.value.status))))
            && (o.Refused? ==>
                  match o.error
                  case WorkflowState => !Open(p)
                  case Forbidden => !ByEditor(actor)
                  case NotFound => !hall.found
                  case BadRequest => slot.end <= slot.start || !hall.open
                                     || !Seats(audience, p.content.attendees, hall.capacity)
                  case Conflict => moves && Taken(p, slot, others)
                  case _ => false)
  {
    assert slot == Moved(p.venue.value.slot, v);
    TakenMeans(p, slot, others);
  }

  lemma VenueIsWithdrawnWhen(p: Proposal, actor: Actor)
    ensures var o := DeleteVenue(p, actor);
            && (o.Accepted? <==> Open(p) && ByEditor(actor) && p.venue.Some? && p.booking == None)
            && (o.Accepted? ==> o.state == p.(venue := None))
            && (o.Refused? ==>
                  match o.error
                  case WorkflowState => !Open(p)
                  case Forbidden => !ByEditor(actor)
                  case NotFound => p.venue == None
                  case IntegrityViolation => p.booking.Some?
                  case _ => false)
  {
  }

  // ---------- budget ----------

  function Cost(i: Budgets.LineItem): int { i.estimate.amount }

  lemma {:induction false} SumOfCosts(items: seq<Budgets.LineItem>)
    ensures Sum(items, Budgets.AmountOf) == Sum(items, Cost)
  {
    if items != [] { SumOfCosts(items[..|items| - 1]); }
  }

  lemma BudgetIsCreatedWhen(p: Proposal, actor: Actor, income: int, contribution: int, items: seq<Budgets.LineItem>)
    ensures var o := CreateBudget(p, actor, income, contribution, items);
            var total := Sum(items, Cost);
            && (o.Accepted? <==>
                  && Open(p) && ByEditor(actor) && p.budget == None
                  && 0 <= income && 0 <= contribution <= 30_000 * 100
                  && (forall i :: i in items ==> 0 < i.estimate.amount)
                  && (items == [] || income + contribution <= total) && Ledger.UniqueIds(items, Budgets.ItemId))
            && (o.Accepted? ==>
                  o.state == p.(budget := Some(Budgets.Budget(income, contribution, total, items,
                                                              Budgets.FinancePending))))
            && (o.Refused? ==>
                  match o.error
                  case WorkflowState => !Open(p)
                  case Forbidden => !ByEditor(actor)
                  case Conflict => p.budget.Some?
                  case Unprocessable =>
                    income < 0 || contribution < 0 || exists i :: i in items && i.estimate.amount <= 0
                  case CapExceeded => contribution > 30_000 * 100
                  case BadRequest => items != [] && income + contribution > total
                  case IntegrityViolation => !Ledger.UniqueIds(items, Budgets.ItemId)
                  case _ => false)
  {
    SumOfCosts(items);
  }

  /** Budget edits go through the same door; the edit itself decides the rest. */
  lemma BudgetIsEditedWhen(p: Proposal, actor: Actor, op: Budgets.BudgetOp)
    ensures var o := EditBudget(p, actor, op);
            && (o.Accepted? <==>
                  Open(p) && ByEditor(actor) && p.budget.Some? && Budgets.Apply(p.budget.value, op).Accepted?)
            && (o.Accepted? ==> o.state == p.(budget := Some(Budgets.Apply(p.budget.value, op).state)))
            && (o.Refused? ==>
                  match o.error
                  case WorkflowState => !Open(p)
                  case Forbidden => !ByEditor(actor)
                  case NotFound => p.budget == None || Budgets.Apply(p.budget.value, op) == Refused(NotFound)
                  case e => p.budget.Some? && Budgets.Apply(p.budget.value, op) == Refused(e))
  {
  }

  lemma HeaderIsUpdatedWhen(b: Budgets.Budget, income: Option<int>, contribution: Option<int>, asked: int, granted: int)
    requires Given(income, b.income, asked) && Given(contribution, b.contribution, granted)
    ensures var o := Budgets.Update(b, income, contribution);
            && (o.Accepted? <==>
                  0 <= asked && 0 <= granted <= 30_000 * 100 && (0 < b.total ==> asked + granted <= b.total))
            && (o.Accepted? ==> o.state == Budgets.Budget(asked, granted, b.total, b.items, b.finance))
            && (o.Refused? ==>
                  match o.error
                  case Unprocessable => asked < 0 || granted < 0
                  case CapExceeded => granted > 30_000 * 100
                  case BadRequest => 0 < b.total < asked + granted
                  case _ => false)
  {
  }

  lemma ItemIsAddedWhen(b: Budgets.Budget, item: Budgets.LineItem)
    requires Budgets.Sound(b)
    ensures var o := Budgets.AddItem(b, item);
            && (o.Accepted? <==> 0 < item.estimate.amount && forall i :: i in b.items ==> i.id != item.id)
            && (o.Accepted? ==> o.state == b.(items := b.items + [item], total := b.total + item.estimate.amount))
            && (o.Refused? ==>
                  match o.error
                  case Unprocessable => item.estimate.amount <= 0
                  case IntegrityViolation => exists i :: i in b.items && i.id == item.id
                  case _ => false)
  {
    SumOfAppend(b.items, item, Budgets.AmountOf);
    var at := Ledger.Find(b.items, Budgets.ItemId, item.id);
    if at.Some? {
      assert b.items[at.value] in b.items && b.items[at.value].id == item.id;
    } else {
      assert forall k :: 0 <= k < |b.items| ==> Budgets.ItemId(b.items[k]) != item.id;
    }
  }

  lemma FindsTheItem(b: Budgets.Budget, k: nat)
    requires Budgets.Sound(b) && k < |b.items|
    ensures Ledger.Find(b.items, Budgets.ItemId, b.items[k].id) == Some(k)
  {
  }

  /** The k-th item, replaced or deleted: the total follows, and nothing else is checked. */
  lemma ItemIsReplacedWhen(b: Budgets.Budget, k: nat, estimate: Budgets.Estimate)
    requires Budgets.Sound(b) && k < |b.items|
    ensures var i := b.items[k];
            Budgets.UpdateItem(b, i.id, estimate)
            == if estimate.amount <= 0 then Refused(Unprocessable)
               else Accepted(b.(items := b.items[k := Budgets.LineItem(i.id, estimate)],
                                total := b.total - i.estimate.amount + estimate.amount))
  {
    FindsTheItem(b, k);
    SumOfUpdate(b.items, k, Budgets.LineItem(b.items[k].id, estimate), Budgets.AmountOf);
  }

  lemma ItemIsDeleted(b: Budgets.Budget, k: nat)
    requires Budgets.Sound(b) && k < |b.items|
    ensures var i := b.items[k];
            Budgets.DeleteItem(b, i.id)
            == Accepted(b.(items := b.items[..k] + b.items[k + 1..], total := b.total - i.estimate.amount))
  {
    FindsTheItem(b, k);
    SumOfRemoveAt(b.items, k, Budgets.AmountOf);
  }

  lemma BudgetIsWithdrawnOrMarkedWhen(p: Proposal, actor: Actor, mark: Budgets.FinanceStatus)
    ensures var delete, verify := DeleteBudget(p, actor), VerifyBudget(p, mark);
            && (delete.Accepted? <==> Open(p) && ByEditor(actor) && p.budget.Some?)
            && (delete.Accepted? ==> delete.state == p.(budget := None))
            && (verify.Accepted? <==> p.budget.Some?)
            && (verify.Accepted? ==> verify.state == p.(budget := Some(p.budget.value.(finance := mark))))
            && (verify.Refused? ==> verify.error == NotFound)
            && (delete.Refused? ==>
                  match delete.error
                  case WorkflowState => !Open(p)
                  case Forbidden => !ByEditor(actor)
                  case NotFound => p.budget == None
                  case _ => false)
  {
  }
}
