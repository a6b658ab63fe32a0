/** A concrete run of one proposal from an empty campus: booked, sent back for revision, moved and
    approved again at the hall step. */
module ProposalScenarios {
  import opened Common
  import opened Bookings
  import opened Proposals
  import opened Campus
  import opened CampusRuns
  import Ed = EditingRules
  import W = WorkflowRules

  /** A run so far and the state it reaches. */
  datatype Play = Play(ops: seq<CampusOp>, c: State) {
    ghost predicate Valid() { c == Run([], ops) }
  }

  lemma Next(p: Play, op: CampusOp) returns (q: Play)
    requires p.Valid()
    ensures q.Valid() && q.c == Step(p.c, op)
  {
    q := Play(p.ops + [op], Step(p.c, op));
    assert q.ops[..|p.ops|] == p.ops;
  }

  /** A campus with this one proposal, not confirmed. */
  function Only(p: Proposal): State { [Request(p, None)] }

  lemma NoOtherBookings(p: Proposal)
    ensures OtherBookings(Only(p), 0) == []
  {
    assert Only(p)[..0] == [];
  }

  lemma EditIt(play: Play, p: Proposal, edit: Ed.EditingOp) returns (q: Play)
    requires play.Valid() && play.c == Only(p)
    requires Ed.Apply(p, edit, []).Accepted? && Ed.Apply(p, edit, []).state.confirmed.None?
    ensures q.Valid() && q.c == Only(Ed.Apply(p, edit, []).state)
  {
    NoOtherBookings(p);
    q := Next(play, Edit(0, edit));
  }

  lemma ReviewIt(play: Play, p: Proposal, review: W.WorkflowOp) returns (q: Play)
    requires play.Valid() && play.c == Only(p)
    requires W.Apply(p, review, []).Accepted? && W.Apply(p, review, []).state.confirmed.None?
    ensures q.Valid() && q.c == Only(W.Apply(p, review, []).state)
  {
    NoOtherBookings(p);
    q := Next(play, Review(0, review));
  }

  // ---------- people, stages and slots ----------

  function Secretary(): Actor { Actor(0, ClubSecretary, true, false) }

  const ROLES: seq<Role> :=
    [FacultyAdvisor, HallIncharge, FinanceOfficer, AdvisorStudentsUnion, DeanStudentAffairs, Principal]

  /** Whoever is assigned to the step of this order. */
  function Approver(order: nat): Actor
    requires 1 <= order <= |ROLES|
  {
    Actor(order, ROLES[order - 1], false, false)
  }

  function Stages(): W.Template {
    seq(|ROLES|, k requires 0 <= k < |ROLES| => W.Stage(ROLES[k], k + 1))
  }

  const HALL := Ed.Hall(true, true, 500)

  const FIRST := Slot(1, 18_720, 20_000, 20_100)

  const LATER := Slot(1, 28_800, 30_000, 30_100)

  /** The step of this order is awaited, by the approver assigned to it. */
  ghost predicate Awaits(p: Proposal, inst: nat, order: nat) {
    && p.owner == 0 && (p.status.Submitted? || p.status.InReview?) && p.confirmed.None?
    && inst < |p.instances| && 1 <= order <= |ROLES|
    && p.instances[inst].status.InProgress? && p.instances[inst].pointer == order
    && |p.instances[inst].steps| == |ROLES|
    && forall k :: order - 1 <= k < |ROLES| ==>
         p.instances[inst].steps[k].status.Pending? && p.instances[inst].steps[k].assignee == k + 1
  }

  /** The proposal as it was written, asking for this slot. */
  ghost predicate Asks(p: Proposal, slot: Slot) {
    && p.owner == 0 && p.content == Plan() && p.confirmed.None?
    && p.venue.Some? && p.venue.value.slot == slot && p.venue.value.audience.None?
  }

  lemma SubmitIt(play: Play, p: Proposal, slot: Slot) returns (q: Play, p': Proposal, inst: nat)
    requires play.Valid() && play.c == Only(p)
    requires Asks(p, slot) && p.status.Editable()
    ensures q.Valid() && q.c == Only(p') && Awaits(p', inst, 1)
    ensures Asks(p', slot) && p'.booking == p.booking
  {
    p' := W.SubmitProposal(p, Secretary(), Stages()).state;
    inst := |p'.instances| - 1;
    q := ReviewIt(play, p, W.SubmitProposalOp(Secretary(), Stages()));
  }

  /** The hall step books the slot asked for, or keeps the one booked before. */
  function BookedBy(p: Proposal, order: nat, slot: Slot): Option<Booking> {
    if order != W.HALL_STEP then p.booking
    else if p.booking.None? then Some(Booking(slot, true))
    else Some(p.booking.value.(active := true))
  }

  lemma ApprovalMovesOn(p: Proposal, inst: nat, order: nat, slot: Slot)
    requires Awaits(p, inst, order) && order < |ROLES| && Asks(p, slot)
    ensures var o := W.ApproveStep(p, inst, order, Approver(order), []);
            && o.Accepted? && Awaits(o.state, inst, order + 1) && o.state.status.InReview?
            && Asks(o.state, slot) && o.state.booking == BookedBy(p, order, slot)
  {
  }

  lemma ApproveIt(play: Play, p: Proposal, inst: nat, order: nat, slot: Slot) returns (q: Play, p': Proposal)
    requires play.Valid() && play.c == Only(p)
    requires Awaits(p, inst, order) && order < |ROLES| && Asks(p, slot)
    ensures q.Valid() && q.c == Only(p') && Awaits(p', inst, order + 1) && p'.status.InReview?
    ensures Asks(p', slot) && p'.booking == BookedBy(p, order, slot)
  {
    ApprovalMovesOn(p, inst, order, slot);
    p' := W.ApproveStep(p, inst, order, Approver(order), []).state;
    q := ReviewIt(play, p, W.ApproveStepOp(inst, order, Approver(order)));
  }

  lemma SendBack(play: Play, p: Proposal, inst: nat, order: nat, slot: Slot) returns (q: Play, p': Proposal)
    requires play.Valid() && play.c == Only(p) && Awaits(p, inst, order) && Asks(p, slot)
    ensures q.Valid() && q.c == Only(p') && p'.status.RevisionRequired?
    ensures Asks(p', slot) && p'.booking == p.booking
  {
    p' := W.RequestRevision(p, inst, order, Approver(order), true).state;
    q := ReviewIt(play, p, W.RequestRevisionOp(inst, order, Approver(order), true));
  }

  // ---------- the run ----------

  function Plan(): Content { Content("fest", None, "CULTURAL", None, None, None, None, None, "2025-26") }

  lemma AskForHall() returns (q: Play, p: Proposal)
    ensures q.Valid() && q.c == Only(p)
    ensures Asks(p, FIRST) && p.status.Draft? && p.booking.None?
  {
    q := Next(Play([], []), NewProposal(0, Plan()));
    p := NewDraft(0, Plan());
    assert q.c == Only(p);
    var create := Ed.CreateVenueOp(Secretary(), FIRST, None, HALL, 0);
    q := EditIt(q, p, create);
    p := Ed.Apply(p, create, []).state;
  }

  /** Submitted, approved by the advisor and at the hall step. */
  lemma ApproveTwice(play: Play, p: Proposal, slot: Slot) returns (q: Play, p': Proposal, inst: nat)
    requires play.Valid() && play.c == Only(p)
    requires Asks(p, slot) && p.status.Editable()
    ensures q.Valid() && q.c == Only(p') && Awaits(p', inst, 3) && p'.status.InReview?
    ensures Asks(p', slot) && p'.booking == BookedBy(p, W.HALL_STEP, slot)
  {
    q, p', inst := SubmitIt(play, p, slot);
    q, p' := ApproveIt(q, p', inst, 1, slot);
    q, p' := ApproveIt(q, p', inst, 2, slot);
  }

  /** The hall is booked, and finance asks for a revision. */
  lemma BookedAndSentBack() returns (q: Play, p: Proposal)
    ensures q.Valid() && q.c == Only(p)
    ensures Asks(p, FIRST) && p.status.RevisionRequired? && p.booking == Some(Booking(FIRST, true))
  {
    var inst;
    q, p := AskForHall();
    q, p, inst := ApproveTwice(q, p, FIRST);
    q, p := SendBack(q, p, inst, 3, FIRST);
  }

  function MoveTo(s: Slot): Ed.VenuePatch { Ed.VenuePatch(None, Some(s.date), Some(s.start), Some(s.end), None) }

  const SHIFTED := Slot(1, 18_720, 20_030, 20_130)

  lemma OnlyOwnBooking(p: Proposal, slot: Slot)
    requires p.booking == Some(Booking(FIRST, true))
    ensures AnyClash(slot, Ed.AllBookings(p, [])) <==> Overlaps(slot, FIRST)
  {
    assert Ed.AllBookings(p, []) == [Booking(FIRST, true)];
    assert Booking(FIRST, true) in Ed.AllBookings(p, []);
  }

  /** Moving the request by half an hour is refused, for no other booking than its own. */
  lemma OwnBookingCanBlock() returns (q: Play, p: Proposal)
    ensures q.Valid() && q.c == Only(p) && p.status.RevisionRequired?
    ensures OtherBookings(q.c, 0) == []
    ensures Ed.UpdateVenue(p, Secretary(), MoveTo(SHIFTED), HALL, OtherBookings(q.c, 0)) == Refused(Conflict)
  {
    q, p := BookedAndSentBack();
    NoOtherBookings(p);
    OnlyOwnBooking(p, SHIFTED);
  }

  lemma MoveAway(play: Play, p: Proposal) returns (q: Play, p': Proposal)
    requires play.Valid() && play.c == Only(p)
    requires Asks(p, FIRST) && p.status.RevisionRequired? && p.booking == Some(Booking(FIRST, true))
    ensures q.Valid() && q.c == Only(p') && p'.status.RevisionRequired?
    ensures Asks(p', LATER) && p'.booking == p.booking
  {
    var move := Ed.UpdateVenueOp(Secretary(), MoveTo(LATER), HALL);
    OnlyOwnBooking(p, LATER);
    q := EditIt(play, p, move);
    p' := Ed.Apply(p, move, []).state;
  }

  /** Moved to a later slot and approved again, the request says one slot and the booking another. */
  lemma ReapprovedElsewhere() returns (q: Play, p: Proposal, inst: nat)
    ensures q.Valid() && q.c == Only(p) && p.status.InReview?
    ensures Awaits(p, inst, 3) && Asks(p, LATER) && p.booking == Some(Booking(FIRST, true))
  {
    q, p := BookedAndSentBack();
    q, p := MoveAway(q, p);
    q, p, inst := ApproveTwice(q, p, LATER);
  }

  lemma LastApprovalConfirms(p: Proposal, inst: nat, slot: Slot)
    requires Awaits(p, inst, |ROLES|) && Asks(p, slot) && p.versions != []
    ensures var o := W.ApproveStep(p, inst, |ROLES|, Approver(|ROLES|), []);
            && o.Accepted? && o.state.status.Approved? && o.state.confirmed.Some?
            && o.state.venue == p.venue && o.state.booking == p.booking && o.state.versions == p.versions
  {
  }

  lemma ApproveLast(play: Play, p: Proposal, inst: nat, slot: Slot) returns (q: Play, p': Proposal)
    requires play.Valid() && play.c == Only(p) && p.versions != []
    requires Awaits(p, inst, |ROLES|) && Asks(p, slot)
    ensures q.Valid() && |q.c| == 1 && q.c[0].proposal == p' && p'.status.Approved?
    ensures p'.venue == p.venue && p'.booking == p.booking
  {
    LastApprovalConfirms(p, inst, slot);
    NoOtherBookings(p);
    p' := W.ApproveStep(p, inst, |ROLES|, Approver(|ROLES|), []).state;
    q := Next(play, Review(0, W.ApproveStepOp(inst, |ROLES|, Approver(|ROLES|))));
  }

  lemma UnderReviewHasVersion(play: Play, p: Proposal)
    requires play.Valid() && play.c == Only(p) && p.status.InReview?
    ensures p.versions != []
  {
    RunKeepsSound([], play.ops);
    assert RequestSound(play.c[0]);
  }

  /** And so it stays through to the final approval: the event takes place in the slot booked first,
      while the version that was approved asks for the later one. */
  lemma BookedSlotCanDiffer() returns (q: Play, p: Proposal)
    ensures q.Valid() && |q.c| == 1 && q.c[0].proposal == p && p.status.Approved? && p.confirmed.Some?
    ensures p.confirmed.value.slot == Some(FIRST) && p.booking == Some(Booking(FIRST, true))
    ensures p.versions != [] && VersionSlot(p.versions[|p.versions| - 1]) == Some(LATER)
  {
    var inst;
    q, p, inst := ReapprovedElsewhere();
    q, p := ApproveIt(q, p, inst, 3, LATER);
    q, p := ApproveIt(q, p, inst, 4, LATER);
    q, p := ApproveIt(q, p, inst, 5, LATER);
    UnderReviewHasVersion(q, p);
    q, p := ApproveLast(q, p, inst, LATER);
    RunKeepsSound([], q.ops);
    ConfirmedInBookedSlot(q.c[0]);
  }

  lemma ConfirmedInBookedSlot(r: Request)
    requires RequestSound(r) && r.proposal.status.Approved?
    ensures var p := r.proposal;
            && p.confirmed.Some? && p.confirmed.value.slot == EventSlot(p) && p.versions != []
            && (p.venue.Some? ==> VersionSlot(p.versions[|p.versions| - 1]) == Some(p.venue.value.slot))
  {
  }
}
