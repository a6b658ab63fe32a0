/** Submission, review and cancellation of proposals over the mutable row. A refused call leaves
    the row as it was: what the transaction had already written is rolled back. */
module WorkflowService {
  import opened Common
  import opened Bookings
  import opened Proposals
  import opened ProposalStore
  import Ed = EditingRules
  import W = WorkflowRules
  import Budgets

  // ---------- submission ----------

  /** Supersedes the running instance, creates the concrete steps one by one and links the new
      instance. */
  method InstantiateWorkflow(row: ProposalRow, template: W.Template)
    modifies row`instances, row`workflow
    ensures row.instances == W.Superseding(old(row.instances), old(row.workflow))
              + [Instance(row.currentVersion, 1, InProgress, W.FreshSteps(template, row.currentVersion))]
    ensures row.workflow == Some(|old(row.instances)|)
  {
    if row.workflow.Some? && row.workflow.value < |row.instances| {
      var prior := row.instances[row.workflow.value];
      if prior.status.InProgress? {
        row.instances := row.instances[row.workflow.value := prior.(status := Superseded)];
      }
    }
    ghost var superseded := row.instances;
    var steps := [];
    for k := 0 to |template|
      invariant row.instances == superseded && row.workflow == old(row.workflow)
      invariant steps == W.FreshSteps(template, row.currentVersion)[..k]
    {
      steps := steps + [WorkflowStep(template[k].role, template[k].assignee, Pending, row.currentVersion, None)];
    }
    assert steps == W.FreshSteps(template, row.currentVersion);
    row.instances := row.instances + [Instance(row.currentVersion, 1, InProgress, steps)];
    row.workflow := Some(|row.instances| - 1);
  }

  method SubmitProposal(row: ProposalRow, actor: Actor, template: W.Template) returns (r: Reply)
    modifies row
    ensures r == W.SubmitProposal(old(row.Value()), actor, template).Reply()
    ensures row.Value() == After(old(row.Value()), W.SubmitProposal(old(row.Value()), actor, template))
  {
    if !row.status.Draft? && !row.status.RevisionRequired? { return Failed(WorkflowState); }
    if !Ed.MayEdit(actor) { return Failed(Forbidden); }
    row.status := Submitted;
    row.currentVersion := row.currentVersion + 1;
    row.versionLock := row.versionLock + 1;
    row.versions := row.versions + [Version(row.currentVersion, SnapshotOf(row.Value()), actor.id)];
    InstantiateWorkflow(row, template);
    return Done;
  }

  // ---------- confirmation ----------

  /** The version with the greatest number. */
  method LatestVersion(versions: seq<Version>) returns (latest: Option<Version>)
    ensures latest == W.Latest(versions)
    ensures latest.None? <==> versions == []
    ensures latest.Some? ==> latest.value in versions
    ensures latest.Some? ==> forall v :: v in versions ==> v.number <= latest.value.number
  {
    latest := None;
    for k := 0 to |versions|
      invariant latest == W.Latest(versions[..k])
    {
      assert versions[..k + 1][..k] == versions[..k];
      if latest.None? || versions[k].number >= latest.value.number { latest := Some(versions[k]); }
    }
    assert versions[..|versions|] == versions;
  }

  method CreateConfirmedEvent(row: ProposalRow)
    modifies row`confirmed
    ensures row.Value() == W.Confirm(old(row.Value()))
  {
    if row.confirmed.Some? { return; }
    var latest := LatestVersion(row.versions);
    if latest.None? { return; }
    var slot := None;
    if row.booking.Some? && row.booking.value.active {
      slot := Some(row.booking.value.slot);
    } else if row.venue.Some? {
      slot := Some(row.venue.value.slot);
    }
    row.confirmed := Some(Confirmed(latest.value.number, latest.value.snapshot, slot));
  }

  // ---------- acting on a step ----------

  /** The guards common to the three actions, in the order they are checked. */
  method GuardAction(row: ProposalRow, inst: nat, order: nat, actor: Actor) returns (error: Option<Error>)
    ensures error == W.ActionError(row.Value(), inst, order, actor)
  {
    if inst >= |row.instances| || order == 0 || order > |row.instances[inst].steps| { return Some(NotFound); }
    var instance := row.instances[inst];
    var step := instance.steps[order - 1];
    if !step.status.Pending? { return Some(WorkflowState); }
    if !instance.status.InProgress? { return Some(WorkflowState); }
    if order != instance.pointer { return Some(WorkflowState); }
    if row.owner == actor.id { return Some(Forbidden); }
    var substitutes := if order == 1 then actor.role.SystemAdmin? else step.role == actor.role;
    var canAct := step.assignee == actor.id || substitutes;
    if !canAct { return Some(Forbidden); }
    return None;
  }

  /** The hall step: the conflict query, the booking, and the exclusion constraint on it. */
  method ConfirmVenue(row: ProposalRow, others: seq<Booking>) returns (r: Reply)
    modifies row`venue, row`booking
    ensures r == W.BookHall(old(row.Value()), others).Reply()
    ensures row.Value() == After(old(row.Value()), W.BookHall(old(row.Value()), others))
  {
    if row.venue.None? { return Done; }
    var venue := row.venue.value;
    if DateConflict(venue.slot, others) { return Failed(Conflict); }
    var booking := if row.booking.None? then Booking(venue.slot, true) else row.booking.value.(active := true);
    var written := Some(booking) != row.booking;
    if written && AnyClash(booking.slot, others) { return Failed(IntegrityViolation); }
    row.venue := Some(venue.(status := VenueApproved));
    row.booking := Some(booking);
    return Done;
  }

  method AdvancePointer(row: ProposalRow, inst: nat, order: nat)
    requires inst < |row.instances|
    modifies row`instances, row`status, row`confirmed
    ensures row.Value() == W.Advance(old(row.Value()), inst, order)
  {
    var instance := row.instances[inst];
    if order < |instance.steps| {
      row.instances := row.instances[inst := instance.(pointer := order + 1)];
      if row.status.Submitted? { row.status := InReview; }
    } else {
      row.instances := row.instances[inst := instance.(status := Completed)];
      row.status := Approved;
      CreateConfirmedEvent(row);
    }
  }

  method ApproveStep(row: ProposalRow, inst: nat, order: nat, actor: Actor, others: seq<Booking>) returns (r: Reply)
    modifies row
    ensures r == W.ApproveStep(old(row.Value()), inst, order, actor, others).Reply()
    ensures row.Value() == After(old(row.Value()), W.ApproveStep(old(row.Value()), inst, order, actor, others))
  {
    var error := GuardAction(row, inst, order, actor);
    if error.Some? { return Failed(error.value); }
    var before := row.instances;
    row.instances := before[inst := W.Marked(before[inst], order, StepApproved, actor.id)];
    if order == W.HALL_STEP {
      var booked := ConfirmVenue(row, others);
      if booked.Failed? {
        row.instances := before;
        return booked;
      }
    }
    if order == W.FINANCE_STEP && row.budget.Some? {
      row.budget := Some(row.budget.value.(finance := Budgets.FinanceVerified));
    }
    AdvancePointer(row, inst, order);
    return Done;
  }

  method RejectStep(row: ProposalRow, inst: nat, order: nat, actor: Actor, reasonGiven: bool) returns (r: Reply)
    modifies row
    ensures r == W.RejectStep(old(row.Value()), inst, order, actor, reasonGiven).Reply()
    ensures row.Value() == After(old(row.Value()), W.RejectStep(old(row.Value()), inst, order, actor, reasonGiven))
  {
    if !reasonGiven { return Failed(BadRequest); }
    var error := GuardAction(row, inst, order, actor);
    if error.Some? { return Failed(error.value); }
    var instance := W.Marked(row.instances[inst], order, StepRejected, actor.id);
    row.instances := row.instances[inst := instance.(status := InstanceRejected)];
    row.status := Rejected;
    if row.venue.Some? { row.venue := Some(row.venue.value.(status := VenueRejected)); }
    if row.booking.Some? { row.booking := Some(row.booking.value.(active := false)); }
    return Done;
  }

  method RequestRevision(row: ProposalRow, inst: nat, order: nat, actor: Actor, reasonGiven: bool) returns (r: Reply)
    modifies row
    ensures r == W.RequestRevision(old(row.Value()), inst, order, actor, reasonGiven).Reply()
    ensures row.Value() == After(old(row.Value()), W.RequestRevision(old(row.Value()), inst, order, actor, reasonGiven))
  {
    if !reasonGiven { return Failed(BadRequest); }
    var error := GuardAction(row, inst, order, actor);
    if error.Some? { return Failed(error.value); }
    row.instances := row.instances[inst := W.Marked(row.instances[inst], order, RevisionRequested, actor.id)];
    row.status := RevisionRequired;
    return Done;
  }

  // ---------- cancellation ----------

  /** Skips the pending steps of a workflow. */
  method SkipPending(steps: seq<WorkflowStep>) returns (skipped: seq<WorkflowStep>)
    ensures skipped == Mapped(steps, W.SkippedRow)
  {
    skipped := steps;
    for k := 0 to |steps|
      invariant |skipped| == |steps|
      invariant forall j :: 0 <= j < k ==> skipped[j] == W.SkippedRow(steps[j])
      invariant forall j :: k <= j < |steps| ==> skipped[j] == steps[j]
    {
      if skipped[k].status.Pending? { skipped := skipped[k := skipped[k].(status := Skipped)]; }
    }
  }

  method CancelProposal(row: ProposalRow, actor: Actor) returns (r: Reply)
    modifies row
    ensures r == W.CancelProposal(old(row.Value()), actor).Reply()
    ensures row.Value() == After(old(row.Value()), W.CancelProposal(old(row.Value()), actor))
  {
    if !Ed.MayEdit(actor) { return Failed(Forbidden); }
    if row.status.Cancelled? || row.status.Rejected? || row.status.Approved? { return Failed(WorkflowState); }
    if row.workflow.Some? && row.workflow.value < |row.instances| {
      var workflow := row.instances[row.workflow.value];
      if workflow.status.InProgress? {
        var steps := SkipPending(workflow.steps);
        row.instances := row.instances[row.workflow.value := workflow.(status := InstanceCancelled, steps := steps)];
      }
    }
    if row.booking.Some? { row.booking := Some(row.booking.value.(active := false)); }
    if row.venue.Some? && row.venue.value.status.VenueApproved? {
      row.venue := Some(row.venue.value.(status := VenueRejected));
    }
    row.status := Cancelled;
    row.versionLock := row.versionLock + 1;
    return Done;
  }
}
