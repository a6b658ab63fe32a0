/** What submitting, reviewing and cancelling a proposal does to its record. */
module WorkflowRules {
  import opened Common
  import opened Bookings
  import opened Proposals
  import opened EditingRules
  import Budgets

  /** One stage of the approval template, with the approver resolved for it. */
  datatype Stage = Stage(role: Role, assignee: nat)

  type Template = t: seq<Stage> | |t| >= 1 witness [Stage(FacultyAdvisor, 0)]

  const HALL_STEP := 2
  const FINANCE_STEP := 3

  // ---------- submission ----------

  function FreshSteps(template: Template, version: nat): (steps: seq<WorkflowStep>)
    ensures |steps| == |template|
    ensures forall k :: 0 <= k < |steps| ==>
      steps[k] == WorkflowStep(template[k].role, template[k].assignee, Pending, version, None)
  {
    seq(|template|, k requires 0 <= k < |template| =>
      WorkflowStep(template[k].role, template[k].assignee, Pending, version, None))
  }

  function Superseding(instances: seq<Instance>, workflow: Option<nat>): (r: seq<Instance>)
    ensures |r| == |instances|
  {
    if workflow.Some? && workflow.value < |instances| && instances[workflow.value].status.InProgress?
    then instances[workflow.value := instances[workflow.value].(status := Superseded)]
    else instances
  }

  /** A resubmission supersedes the running instance and starts a new one on a new version. */
  function SubmitProposal(p: Proposal, actor: Actor, template: Template): Outcome<Proposal> {
    if !p.status.Editable() then Refused(WorkflowState)
    else if !MayEdit(actor) then Refused(Forbidden)
    else
      var n := p.currentVersion + 1;
      var instances := Superseding(p.instances, p.workflow) + [Instance(n, 1, InProgress, FreshSteps(template, n))];
      Accepted(p.(
        status := Submitted,
        currentVersion := n,
        versionLock := p.versionLock + 1,
        versions := p.versions + [Version(n, SnapshotOf(p), actor.id)],
        instances := instances,
        workflow := Some(|instances| - 1)))
  }

  // ---------- acting on a step ----------

  predicate CanAct(step: WorkflowStep, order: nat, actor: Actor) {
    step.assignee == actor.id || (if order == 1 then actor.role.SystemAdmin? else step.role == actor.role)
  }

  /** The guards common to approving, rejecting and asking for a revision. */
  function ActionError(p: Proposal, inst: nat, order: nat, actor: Actor): Option<Error> {
    if inst >= |p.instances| || order == 0 || order > |p.instances[inst].steps| then Some(NotFound)
    else
      var i := p.instances[inst];
      var step := i.steps[order - 1];
      if !step.status.Pending? then Some(WorkflowState)
      else if !i.status.InProgress? then Some(WorkflowState)
      else if order != i.pointer then Some(WorkflowState)
      else if p.owner == actor.id then Some(Forbidden)
      else if !CanAct(step, order, actor) then Some(Forbidden)
      else None
  }

  function Marked(i: Instance, order: nat, status: StepStatus, actor: nat): Instance
    requires 1 <= order <= |i.steps|
  {
    var step := i.steps[order - 1].(status := status, versionReviewed := i.version, actedBy := Some(actor));
    i.(steps := i.steps[order - 1 := step])
  }

  /** The hall step books the requested slot, or keeps the booking of an earlier round. */
  function BookHall(p: Proposal, others: seq<Booking>): Outcome<Proposal> {
    if p.venue.None? then Accepted(p)
    else
      var slot := p.venue.value.slot;
      if DateConflict(slot, others) then Refused(Conflict)
      else
        var booking := if p.booking.None? then Booking(slot, true) else p.booking.value.(active := true);
        if Some(booking) != p.booking && AnyClash(booking.slot, others) then Refused(IntegrityViolation)
        else Accepted(p.(venue := Some(p.venue.value.(status := VenueApproved)), booking := Some(booking)))
  }

  function Latest(versions: seq<Version>): (latest: Option<Version>)
    ensures latest.None? <==> versions == []
    ensures latest.Some? ==> latest.value in versions
    ensures latest.Some? ==> forall v :: v in versions ==> v.number <= latest.value.number
  {
    if versions == [] then None
    else
      var last, rest := versions[|versions| - 1], Latest(versions[..|versions| - 1]);
      if rest.Some? && rest.value.number > last.number then rest else Some(last)
  }

  /** The confirmed event takes the latest version and the active booking's slot. */
  function Confirm(p: Proposal): Proposal {
    var latest := Latest(p.versions);
    if p.confirmed.Some? || latest.None? then p
    else
      var slot := if p.booking.Some? && p.booking.value.active then Some(p.booking.value.slot)
                  else if p.venue.Some? then Some(p.venue.value.slot) else None;
      p.(confirmed := Some(Confirmed(latest.value.number, latest.value.snapshot, slot)))
  }

  /** Moves the pointer on, or completes the instance and confirms the event. */
  function Advance(p: Proposal, inst: nat, order: nat): Proposal
    requires inst < |p.instances|
  {
    var i := p.instances[inst];
    if order < |i.steps| then
      p.(instances := p.instances[inst := i.(pointer := order + 1)],
         status := if p.status.Submitted? then InReview else p.status)
    else
      Confirm(p.(instances := p.instances[inst := i.(status := Completed)], status := Approved))
  }

  function ApproveStep(p: Proposal, inst: nat, order: nat, actor: Actor, others: seq<Booking>): Outcome<Proposal> {
    var error := ActionError(p, inst, order, actor);
    if error.Some? then Refused(error.value)
    else
      var marked := p.(instances := p.instances[inst := Marked(p.instances[inst], order, StepApproved, actor.id)]);
      var booked := if order == HALL_STEP then BookHall(marked, others) else Accepted(marked);
      if booked.Refused? then booked
      else
        var cleared := if order == FINANCE_STEP && p.budget.Some?
                       then booked.state.(budget := Some(p.budget.value.(finance := Budgets.FinanceVerified)))
                       else booked.state;
        Accepted(Advance(cleared, inst, order))
  }

  function Released(b: Option<Booking>): Option<Booking> {
    if b.Some? then Some(b.value.(active := false)) else None
  }

  function RejectStep(p: Proposal, inst: nat, order: nat, actor: Actor, reasonGiven: bool): Outcome<Proposal> {
    if !reasonGiven then Refused(BadRequest)
    else
      var error := ActionError(p, inst, order, actor);
      if error.Some? then Refused(error.value)
      else
        var i := Marked(p.instances[inst], order, StepRejected, actor.id).(status := InstanceRejected);
        Accepted(p.(
          instances := p.instances[inst := i],
          status := Rejected,
          venue := if p.venue.Some? then Some(p.venue.value.(status := VenueRejected)) else None,
          booking := Released(p.booking)))
  }

  function RequestRevision(p: Proposal, inst: nat, order: nat, actor: Actor, reasonGiven: bool): Outcome<Proposal> {
    if !reasonGiven then Refused(BadRequest)
    else
      var error := ActionError(p, inst, order, actor);
      if error.Some? then Refused(error.value)
      else Accepted(p.(
        instances := p.instances[inst := Marked(p.instances[inst], order, RevisionRequested, actor.id)],
        status := RevisionRequired))
  }

  // ---------- cancellation ----------

  function SkippedRow(s: WorkflowStep): WorkflowStep { if s.status.Pending? then s.(status := Skipped) else s }

  function CancelledInstance(i: Instance): Instance {
    if i.status.InProgress? then i.(status := InstanceCancelled, steps := Mapped(i.steps, SkippedRow)) else i
  }

  function CancelProposal(p: Proposal, actor: Actor): Outcome<Proposal> {
    if !MayEdit(actor) then Refused(Forbidden)
    else if p.status.Final() then Refused(WorkflowState)
    else
      var instances := if p.workflow.Some? && p.workflow.value < |p.instances|
                       then p.instances[p.workflow.value := CancelledInstance(p.instances[p.workflow.value])]
                       else p.instances;
      var venue := if p.venue.Some? && p.venue.value.status.VenueApproved?
                   then Some(p.venue.value.(status := VenueRejected)) else p.venue;
      Accepted(p.(instances := instances, booking := Released(p.booking), venue := venue, status := Cancelled,
                  versionLock := p.versionLock + 1))
  }

  /** Cancelling the confirmed event frees the hall. */
  function ReleaseHall(p: Proposal): Proposal { p.(booking := Released(p.booking)) }

  // ---------- one step ----------

  datatype WorkflowOp =
    | SubmitProposalOp(actor: Actor, template: Template)
    | ApproveStepOp(inst: nat, order: nat, actor: Actor)
    | RejectStepOp(inst: nat, order: nat, actor: Actor, reasonGiven: bool)
    | RequestRevisionOp(inst: nat, order: nat, actor: Actor, reasonGiven: bool)
    | CancelProposalOp(actor: Actor)

  function Apply(p: Proposal, op: WorkflowOp, others: seq<Booking>): Outcome<Proposal> {
    match op
    case SubmitProposalOp(actor, template) => SubmitProposal(p, actor, template)
    case ApproveStepOp(inst, order, actor) => ApproveStep(p, inst, order, actor, others)
    case RejectStepOp(inst, order, actor, reason) => RejectStep(p, inst, order, actor, reason)
    case RequestRevisionOp(inst, order, actor, reason) => RequestRevision(p, inst, order, actor, reason)
    case CancelProposalOp(actor) => CancelProposal(p, actor)
  }

  // ---------- what each step keeps ----------

  lemma SupersedingIsSound(p: Proposal)
    requires Coupled(p) && p.status.Editable()
    ensures var instances := Superseding(p.instances, p.workflow);
            && |instances| == |p.instances|
            && (forall k :: 0 <= k < |instances| ==> instances[k].status.Superseded?)
            && (forall k :: 0 <= k < |instances| ==> instances[k].version == k + 1)
            && (forall k :: 0 <= k < |instances| ==> InstanceSound(instances[k], p.owner))
  {
  }

  lemma FreshInstanceIsSound(template: Template, version: nat, owner: nat)
    ensures InstanceSound(Instance(version, 1, InProgress, FreshSteps(template, version)), owner)
    ensures InPhase(Submitted, Instance(version, 1, InProgress, FreshSteps(template, version)))
  {
  }

  lemma SubmitKeepsCoupled(p: Proposal, actor: Actor, template: Template)
    requires Coupled(p)
    ensures Coupled(After(p, SubmitProposal(p, actor, template)))
  {
    if SubmitProposal(p, actor, template).Accepted? {
      SupersedingIsSound(p);
      FreshInstanceIsSound(template, p.currentVersion + 1, p.owner);
    }
  }

  lemma SubmitKeepsSound(p: Proposal, actor: Actor, template: Template)
    requires Sound(p)
    ensures Sound(After(p, SubmitProposal(p, actor, template)))
  {
    SubmitKeepsCoupled(p, actor, template);
    var o := SubmitProposal(p, actor, template);
    if o.Accepted? {
      assert SnapshotOf(o.state) == SnapshotOf(p);
      assert o.state.confirmed.None?;
      assert VersionsWithinCap(o.state) && VenueSound(o.state);
    }
  }

  /** An accepted action is on the awaited step of the linked instance. */
  lemma ActionIsOnAwaitedStep(p: Proposal, inst: nat, order: nat, actor: Actor)
    requires Coupled(p) && ActionError(p, inst, order, actor).None?
    ensures p.currentVersion > 0 && inst == p.currentVersion - 1 && order == p.instances[inst].pointer
    ensures p.status.Submitted? || p.status.InReview?
  {
  }

  lemma MarkedIsSound(i: Instance, order: nat, status: StepStatus, actor: nat, owner: nat)
    requires InstanceSound(i, owner) && order == i.pointer && actor != owner
    ensures InstanceSound(Marked(i, order, status, actor), owner)
  {
  }

  lemma RejectKeepsSound(p: Proposal, inst: nat, order: nat, actor: Actor, reasonGiven: bool)
    requires Sound(p)
    ensures Sound(After(p, RejectStep(p, inst, order, actor, reasonGiven)))
  {
    var o := RejectStep(p, inst, order, actor, reasonGiven);
    if o.Accepted? {
      ActionIsOnAwaitedStep(p, inst, order, actor);
      MarkedIsSound(p.instances[inst], order, StepRejected, actor.id, p.owner);
      assert SnapshotOf(o.state) == SnapshotOf(p);
      assert Coupled(o.state);
    }
  }

  lemma RevisionKeepsSound(p: Proposal, inst: nat, order: nat, actor: Actor, reasonGiven: bool)
    requires Sound(p)
    ensures Sound(After(p, RequestRevision(p, inst, order, actor, reasonGiven)))
  {
    var o := RequestRevision(p, inst, order, actor, reasonGiven);
    if o.Accepted? {
      ActionIsOnAwaitedStep(p, inst, order, actor);
      MarkedIsSound(p.instances[inst], order, RevisionRequested, actor.id, p.owner);
      assert Coupled(o.state);
    }
  }

  lemma {:induction false} LatestIsLast(versions: seq<Version>)
    requires versions != [] && forall k :: 0 <= k < |versions| ==> versions[k].number == k + 1
    ensures Latest(versions) == Some(versions[|versions| - 1])
  {
    if |versions| > 1 {
      LatestIsLast(versions[..|versions| - 1]);
    }
  }

  lemma BookHallKeeps(p: Proposal, others: seq<Booking>)
    requires VenueSound(p) && !p.status.Final()
    ensures var o := BookHall(p, others);
            o.Accepted? ==> && VenueSound(o.state) && SnapshotOf(o.state) == SnapshotOf(p)
                            && o.state == p.(venue := o.state.venue, booking := o.state.booking)
  {
  }

  /** The awaited step of the linked instance has just been approved. */
  ghost predicate StepJustApproved(p: Proposal, inst: nat, order: nat) {
    && |p.versions| == p.currentVersion == |p.instances| && p.currentVersion > 0 && inst == p.currentVersion - 1
    && (forall k :: 0 <= k < |p.versions| ==> p.versions[k].number == k + 1)
    && (forall k :: 0 <= k < |p.instances| ==> p.instances[k].version == k + 1)
    && (forall k :: 0 <= k < |p.instances| ==> InstanceSound(p.instances[k], p.owner))
    && (forall k :: 0 <= k < |p.instances| - 1 ==> p.instances[k].status.Superseded?)
    && p.workflow == Some(inst) && (p.status.Submitted? || p.status.InReview?)
    && order == p.instances[inst].pointer && p.instances[inst].status.InProgress?
    && p.instances[inst].steps[order - 1].status.StepApproved?
    && AsSubmitted(p)
  }

  lemma AdvanceKeepsCoupled(p: Proposal, inst: nat, order: nat)
    requires StepJustApproved(p, inst, order)
    ensures Coupled(Advance(p, inst, order))
  {
    var p' := Advance(p, inst, order);
    assert InstanceSound(p'.instances[inst], p.owner);
  }

  lemma AdvanceConfirms(p: Proposal, inst: nat, order: nat)
    requires StepJustApproved(p, inst, order)
    ensures var p' := Advance(p, inst, order);
            && AsSubmitted(p') && SnapshotOf(p') == SnapshotOf(p)
            && p' == p.(instances := p'.instances, status := p'.status, confirmed := p'.confirmed)
            && !p'.status.Rejected? && !p'.status.Cancelled?
  {
    LatestIsLast(p.versions);
    assert SnapshotOf(Advance(p, inst, order)) == SnapshotOf(p);
  }

  /** The confirmed event takes place in the booked slot, the booking being active. */
  lemma AdvanceKeepsVenue(p: Proposal, inst: nat, order: nat)
    requires StepJustApproved(p, inst, order) && VenueSound(p)
    ensures VenueSound(Advance(p, inst, order))
  {
  }

  lemma MarkingApproves(p: Proposal, inst: nat, order: nat, actor: Actor)
    requires Coupled(p) && AsSubmitted(p) && ActionError(p, inst, order, actor).None?
    ensures var i := Marked(p.instances[inst], order, StepApproved, actor.id);
            StepJustApproved(p.(instances := p.instances[inst := i]), inst, order)
  {
    ActionIsOnAwaitedStep(p, inst, order, actor);
    var i := Marked(p.instances[inst], order, StepApproved, actor.id);
    MarkedIsSound(p.instances[inst], order, StepApproved, actor.id, p.owner);
    assert SnapshotOf(p.(instances := p.instances[inst := i])) == SnapshotOf(p);
  }

  /** The hall and finance interlocks leave the workflow and everything submitted alone. */
  lemma InterlocksKeepStep(p: Proposal, p': Proposal, inst: nat, order: nat)
    requires StepJustApproved(p, inst, order) && SnapshotOf(p') == SnapshotOf(p)
    requires p' == p.(venue := p'.venue, booking := p'.booking, budget := p'.budget)
    ensures StepJustApproved(p', inst, order)
  {
  }

  lemma ApproveKeepsSound(p: Proposal, inst: nat, order: nat, actor: Actor, others: seq<Booking>)
    requires Sound(p)
    ensures Sound(After(p, ApproveStep(p, inst, order, actor, others)))
  {
    var o := ApproveStep(p, inst, order, actor, others);
    if o.Accepted? {
      MarkingApproves(p, inst, order, actor);
      var marked := p.(instances := p.instances[inst := Marked(p.instances[inst], order, StepApproved, actor.id)]);
      BookHallKeeps(marked, others);
      var booked := if order == HALL_STEP then BookHall(marked, others).state else marked;
      var cleared := if order == FINANCE_STEP && p.budget.Some?
                     then booked.(budget := Some(p.budget.value.(finance := Budgets.FinanceVerified)))
                     else booked;
      assert SnapshotOf(cleared) == SnapshotOf(marked);
      InterlocksKeepStep(marked, cleared, inst, order);
      assert VenueSound(cleared) && VersionsWithinCap(cleared);
      AdvanceKeepsCoupled(cleared, inst, order);
      AdvanceConfirms(cleared, inst, order);
      AdvanceKeepsVenue(cleared, inst, order);
      assert o.state == Advance(cleared, inst, order);
    }
  }

  lemma CancelledInstanceIsSound(i: Instance, owner: nat)
    requires InstanceSound(i, owner) && i.status.InProgress?
    ensures InstanceSound(CancelledInstance(i), owner) && CancelledInstance(i).status.InstanceCancelled?
    ensures forall k :: 0 <= k < |i.steps| ==> !CancelledInstance(i).steps[k].status.Pending?
  {
  }

  lemma CancelKeepsSound(p: Proposal, actor: Actor)
    requires Sound(p)
    ensures Sound(After(p, CancelProposal(p, actor)))
  {
    var o := CancelProposal(p, actor);
    if o.Accepted? {
      if p.currentVersion > 0 {
        CancelledInstanceIsSound(p.instances[p.currentVersion - 1], p.owner);
      }
      assert Coupled(o.state);
    }
  }

  lemma StepKeepsSound(p: Proposal, op: WorkflowOp, others: seq<Booking>)
    requires Sound(p)
    ensures Sound(After(p, Apply(p, op, others)))
  {
    match op
    case SubmitProposalOp(actor, template) => SubmitKeepsSound(p, actor, template);
    case ApproveStepOp(inst, order, actor) => ApproveKeepsSound(p, inst, order, actor, others);
    case RejectStepOp(inst, order, actor, reason) => RejectKeepsSound(p, inst, order, actor, reason);
    case RequestRevisionOp(inst, order, actor, reason) => RevisionKeepsSound(p, inst, order, actor, reason);
    case CancelProposalOp(actor) => CancelKeepsSound(p, actor);
  }

  /** Nothing a reviewer or planner does moves a decided proposal. */
  lemma DecidedIsFinal(p: Proposal, op: WorkflowOp, others: seq<Booking>)
    requires Coupled(p) && p.status.Final()
    ensures After(p, Apply(p, op, others)) == p
  {
    match op
    case ApproveStepOp(inst, order, actor) => NoActionWhenDecided(p, inst, order, actor);
    case RejectStepOp(inst, order, actor, _) => NoActionWhenDecided(p, inst, order, actor);
    case RequestRevisionOp(inst, order, actor, _) => NoActionWhenDecided(p, inst, order, actor);
    case _ =>
  }

  lemma NoActionWhenDecided(p: Proposal, inst: nat, order: nat, actor: Actor)
    requires Coupled(p) && p.status.Final()
    ensures ActionError(p, inst, order, actor).Some?
  {
  }

  /** After a revision the hall step keeps the slot of the earlier booking, whatever the venue
      request now says: the booked slot is the requested one exactly when there was no booking
      yet or the request still asks for it. */
  lemma BookedSlotIsRequestedWhen(p: Proposal, others: seq<Booking>)
    requires p.venue.Some? && BookHall(p, others).Accepted?
    ensures var p' := BookHall(p, others).state;
            && p'.booking.Some? && p'.booking.value.active
            && (p'.booking.value.slot == p'.venue.value.slot
                <==> p.booking.None? || p.booking.value.slot == p.venue.value.slot)
  {
  }

  /** Recorded versions are never rewritten or dropped. */
  lemma VersionsExtend(p: Proposal, op: WorkflowOp, others: seq<Booking>)
    ensures p.versions <= After(p, Apply(p, op, others)).versions
  {
  }

  /** Proposal and linked instance are decided together, and alike. */
  lemma PhaseDecides(p: Proposal)
    requires Coupled(p) && p.currentVersion > 0
    ensures var i := p.instances[p.currentVersion - 1];
            && (p.status.Approved? <==> i.status.Completed?)
            && (p.status.Rejected? <==> i.status.InstanceRejected?)
            && (p.status.Cancelled? <==> i.status.InstanceCancelled?)
  {
  }
}
