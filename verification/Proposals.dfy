/** The record of one event proposal: its content, venue request and budget, its numbered
    versions and workflow instances, its hall booking and the event it was confirmed as. */
module Proposals {
  import opened Common
  import opened Bookings
  import Budgets

  datatype ProposalStatus = Draft | Submitted | InReview | RevisionRequired | Approved | Rejected | Cancelled {
    predicate Editable() { Draft? || RevisionRequired? }

    predicate Final() { Approved? || Rejected? || Cancelled? }

    /** Under review or decided: what was submitted may no longer move. */
    predicate Frozen() { Submitted? || InReview? || Approved? || Rejected? }
  }

  /** The fields of a proposal its planner may edit. */
  datatype Content = Content(
    title: string,
    description: Option<string>,
    eventType: string,
    attendees: Option<nat>,
    date: Option<int>,
    guestName: Option<string>,
    guestDesignation: Option<string>,
    guestInstitution: Option<string>,
    academicYear: string
  )

  datatype VenueStatus = VenuePending | VenueApproved | VenueRejected

  datatype VenueRequest = VenueRequest(slot: Slot, audience: Option<nat>, status: VenueStatus)

  /** What a version records of a proposal at submission. */
  datatype Snapshot = Snapshot(
    content: Content,
    venue: Option<(Slot, Option<nat>)>,
    budget: Option<(int, int, int, seq<Budgets.Estimate>)>
  )

  datatype Version = Version(number: nat, snapshot: Snapshot, submittedBy: nat)

  datatype StepStatus = Pending | StepApproved | StepRejected | RevisionRequested | Skipped

  /** One step of an instance; `actedBy` is the actor the audit log records for it. */
  datatype WorkflowStep = WorkflowStep(
    role: Role,
    assignee: nat,
    status: StepStatus,
    versionReviewed: nat,
    actedBy: Option<nat>
  )

  datatype InstanceStatus = InProgress | Completed | InstanceRejected | InstanceCancelled | Superseded

  /** `pointer` is the step order awaited, counted from 1. */
  datatype Instance = Instance(version: nat, pointer: nat, status: InstanceStatus, steps: seq<WorkflowStep>)

  /** The confirmed event an approval creates. */
  datatype Confirmed = Confirmed(version: nat, snapshot: Snapshot, slot: Option<Slot>)

  datatype Proposal = Proposal(
    owner: nat,
    status: ProposalStatus,
    content: Content,
    currentVersion: nat,
    versionLock: nat,
    venue: Option<VenueRequest>,
    budget: Option<Budgets.Budget>,
    versions: seq<Version>,
    instances: seq<Instance>,
    workflow: Option<nat>,
    booking: Option<Booking>,
    confirmed: Option<Confirmed>
  )

  function NewDraft(owner: nat, content: Content): Proposal {
    Proposal(owner, Draft, content, 0, 0, None, None, [], [], None, None, None)
  }

  function SnapshotOf(p: Proposal): Snapshot {
    Snapshot(p.content,
             if p.venue.None? then None else Some((p.venue.value.slot, p.venue.value.audience)),
             if p.budget.None? then None else Some(p.budget.value.Figures()))
  }

  // ---------- what every reachable proposal satisfies ----------

  /** Steps before the pointer are approved; steps after it are untouched, or skipped when the
      workflow was cancelled. Whoever acted was not the owner, and reviewed this version. */
  ghost predicate InstanceSound(i: Instance, owner: nat) {
    && 1 <= i.pointer <= |i.steps|
    && (forall k :: 0 <= k < i.pointer - 1 ==> i.steps[k].status.StepApproved?)
    && (forall k :: i.pointer <= k < |i.steps| ==>
          if i.status.InstanceCancelled? then i.steps[k].status.Skipped? else i.steps[k].status.Pending?)
    && (forall k :: 0 <= k < |i.steps| ==> i.steps[k].versionReviewed == i.version)
    && (forall k :: 0 <= k < |i.steps| && Acted(i.steps[k].status) ==>
          i.steps[k].actedBy.Some? && i.steps[k].actedBy.value != owner)
  }

  predicate Acted(s: StepStatus) { s.StepApproved? || s.StepRejected? || s.RevisionRequested? }

  /** The status of a proposal and the state of its linked workflow instance. */
  ghost predicate InPhase(status: ProposalStatus, i: Instance)
    requires 1 <= i.pointer <= |i.steps|
  {
    var awaited := i.steps[i.pointer - 1].status;
    match status
    case Draft => false
    case Submitted => i.status.InProgress? && awaited.Pending? && i.pointer == 1
    case InReview => i.status.InProgress? && awaited.Pending? && i.pointer > 1
    case RevisionRequired => i.status.InProgress? && awaited.RevisionRequested?
    case Approved => i.status.Completed? && awaited.StepApproved? && i.pointer == |i.steps|
    case Rejected => i.status.InstanceRejected? && awaited.StepRejected?
    case Cancelled => i.status.InstanceCancelled? && forall k :: 0 <= k < |i.steps| ==> !i.steps[k].status.Pending?
  }

  /** Version numbers, instances and the link between proposal and workflow. */
  ghost predicate Coupled(p: Proposal) {
    && |p.versions| == p.currentVersion == |p.instances|
    && (forall k :: 0 <= k < |p.versions| ==> p.versions[k].number == k + 1)
    && (forall k :: 0 <= k < |p.instances| ==> p.instances[k].version == k + 1)
    && (forall k :: 0 <= k < |p.instances| ==> InstanceSound(p.instances[k], p.owner))
    && (forall k :: 0 <= k < |p.instances| - 1 ==> p.instances[k].status.Superseded?)
    && p.workflow == (if p.currentVersion == 0 then None else Some(p.currentVersion - 1))
    && (p.currentVersion == 0 ==> p.status.Draft? || p.status.Cancelled?)
    && (p.currentVersion > 0 ==> InPhase(p.status, p.instances[p.currentVersion - 1]))
  }

  /** While frozen, the live record is what the latest version recorded; an approval confirms
      that version. */
  ghost predicate AsSubmitted(p: Proposal) {
    && (p.status.Frozen() ==> p.versions != [] && SnapshotOf(p) == p.versions[|p.versions| - 1].snapshot)
    && (p.status.Approved? <==> p.confirmed.Some?)
    && (p.confirmed.Some? ==>
          && p.confirmed.value.version == p.currentVersion
          && p.confirmed.value.snapshot == SnapshotOf(p))
  }

  /** Every version ever recorded asked for a contribution within the cap. */
  ghost predicate VersionsWithinCap(p: Proposal) {
    forall k :: 0 <= k < |p.versions| && p.versions[k].snapshot.budget.Some? ==>
      0 <= p.versions[k].snapshot.budget.value.1 <= Budgets.CAP
  }

  /** Where and when an event takes place: in its booked slot, else in the one asked for. */
  function EventSlot(p: Proposal): Option<Slot> {
    if p.booking.Some? then Some(p.booking.value.slot)
    else if p.venue.Some? then Some(p.venue.value.slot)
    else None
  }

  ghost predicate VenueSound(p: Proposal) {
    && (p.venue.Some? ==> p.venue.value.slot.Proper())
    && (p.booking.Some? ==> p.venue.Some? && p.booking.value.slot.Proper())
    && (p.status.Rejected? || p.status.Cancelled? ==> p.booking.None? || !p.booking.value.active)
    && (!p.status.Final() && p.booking.Some? ==> p.booking.value.active)
    && (p.confirmed.Some? ==> p.confirmed.value.slot == EventSlot(p))
  }

  ghost predicate Sound(p: Proposal) {
    && Coupled(p)
    && AsSubmitted(p)
    && VersionsWithinCap(p)
    && VenueSound(p)
    && (p.budget.Some? ==> Budgets.Sound(p.budget.value))
  }
}
