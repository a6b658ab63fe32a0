/** What holds in every state the campus can reach from an empty one. */
module CampusRuns {
  import opened Common
  import opened Ledger
  import opened Bookings
  import opened Invoices
  import opened Campus
  import P = Proposals
  import Ed = EditingRules
  import W = WorkflowRules
  import F = EventFiles
  import R = EventRuns
  import Safety = EventSafety
  import Budgets

  /** The states some run of operations leads to from an empty campus. */
  ghost predicate Reachable(c: State) { exists ops :: c == Run([], ops) }

  lemma ReachableIsSound(c: State)
    requires Reachable(c)
    ensures Sound(c)
  {
    var ops :| c == Run([], ops);
    RunKeepsSound([], ops);
  }

  // ---------- halls ----------

  /** No instant of a hall is ever booked twice. */
  lemma NoDoubleBooking(c: State, i: nat, j: nat, t: int)
    requires Reachable(c)
    requires i < |c| && j < |c| && i != j
    ensures var a, b := c[i].proposal.booking, c[j].proposal.booking;
            a.Some? && b.Some? && a.value.active && b.value.active && a.value.slot.hall == b.value.slot.hall
            ==> !(a.value.slot.Covers(t) && b.value.slot.Covers(t))
  {
    ReachableIsSound(c);
    assert Apart(c[i], c[j]);
  }

  /** All rows of the booking table. */
  function BookingTable(c: State): seq<Booking> { OtherBookings(c, |c|) }

  lemma {:induction false} TableIsExclusive(c: State, k: nat)
    requires HallsExclusive(c) && |c| <= k
    ensures Exclusive(OtherBookings(c, k))
  {
    if c != [] {
      var n := |c| - 1;
      assert forall i :: 0 <= i < n ==> c[..n][i] == c[i];
      TableIsExclusive(c[..n], k);
      var front, table := OtherBookings(c[..n], k), OtherBookings(c, k);
      forall i, j | 0 <= i < j < |table| && table[i].active
        ensures !Clashes(table[i].slot, table[j])
      {
        if j == |front| {
          assert table[i] in front && table[j] in BookingOf(c[n]);
          OtherBookingsMean(c[..n], k, table[i]);
          var m :| 0 <= m < n && m != k && table[i] in BookingOf(c[..n][m]);
          assert Apart(c[m], c[n]);
        }
      }
    }
  }

  /** In every reachable state the availability query answers exactly whether confirming the slot
      would keep the halls free of double bookings. */
  lemma AvailabilityDecidesConfirmation(c: State, slot: Slot)
    requires Reachable(c)
    ensures var table := BookingTable(c);
            !AnyClash(slot, table) <==> Exclusive(table + [Booking(slot, true)])
  {
    ReachableIsSound(c);
    TableIsExclusive(c, |c|);
    AvailableIffConfirmable(BookingTable(c), slot);
  }

  // ---------- invoices ----------

  /** Two live claims of one vendor's invoice of one date are in the same event, on one bill. */
  lemma InvoiceClaimedOnce(c: State, i: nat, j: nat, a: Expense, b: Expense)
    requires Reachable(c)
    requires i < |c| && j < |c|
    requires a in ExpensesOf(c[i]) && b in ExpensesOf(c[j])
    requires !a.status.Disallowed? && !b.status.Disallowed?
    requires a.invoice.Some? && a.invoice == b.invoice && a.vendor == b.vendor && a.invoiceDate == b.invoiceDate
    ensures i == j && a.bill == b.bill
  {
    ReachableIsSound(c);
    assert SameLive(a, b);
    assert i != j ==> CleanAcross(ExpensesOf(c[i]), ExpensesOf(c[j]));
    assert CleanWithin(ExpensesOf(c[i]));
  }

  // ---------- money, end to end ----------

  /** From proposal to settlement: payout within the sanctioned grant, the grant within the cap. */
  lemma PayoutWithinCap(c: State, k: nat)
    requires Reachable(c)
    requires k < |c| && c[k].file.Some?
    requires c[k].file.value.settlement.Some?
    ensures var r := c[k];
            var f, s := r.file.value, r.file.value.settlement.value;
            && 0 <= s.figures.payout <= s.sanction.grant <= Budgets.CAP
            && r.proposal.confirmed.Some? && SanctionOf(r.proposal.confirmed.value) == Some(s.sanction)
            && 0 <= F.NetCash(s.figures.advance, f.payments) <= s.sanction.grant + s.figures.advance
            && s.figures.advance <= s.sanction.grant
  {
    ReachableIsSound(c);
    WithinCap(c[k].proposal);
  }

  // ---------- what is approved is what was submitted ----------

  ghost predicate ApprovedByAnother(step: P.WorkflowStep, version: nat, owner: nat) {
    step.status.StepApproved? && step.versionReviewed == version && step.actedBy.Some? && step.actedBy.value != owner
  }

  /** The latest version has the current number and records the live proposal. */
  ghost predicate AsVersioned(p: P.Proposal) {
    && 0 < p.currentVersion == |p.versions|
    && p.versions[p.currentVersion - 1].number == p.currentVersion
    && p.versions[p.currentVersion - 1].snapshot == P.SnapshotOf(p)
  }

  /** The current version went through every step, in order, each approved by somebody other than
      the owner, and is the one the event was confirmed from, to take place in the event's slot. */
  ghost predicate ApprovedInFull(p: P.Proposal) {
    && 0 < p.currentVersion == |p.instances| && p.workflow == Some(p.currentVersion - 1)
    && p.confirmed.Some?
    && p.confirmed.value.version == p.currentVersion == p.instances[p.currentVersion - 1].version
    && p.confirmed.value.snapshot == P.SnapshotOf(p)
    && p.confirmed.value.slot == P.EventSlot(p)
    && forall step :: step in p.instances[p.currentVersion - 1].steps ==>
         ApprovedByAnother(step, p.currentVersion, p.owner)
  }

  lemma CompletedStepsApproved(i: P.Instance, owner: nat)
    requires P.InstanceSound(i, owner) && P.InPhase(P.Approved, i)
    ensures forall step :: step in i.steps ==> ApprovedByAnother(step, i.version, owner)
  {
    forall step | step in i.steps
      ensures ApprovedByAnother(step, i.version, owner)
    {
      var n :| 0 <= n < |i.steps| && i.steps[n] == step;
      assert n < i.pointer - 1 || n == i.pointer - 1;
    }
  }

  lemma FrozenAsVersioned(p: P.Proposal)
    requires P.Sound(p)
    ensures p.status.Frozen() ==> AsVersioned(p)
    ensures p.status.Approved? ==> ApprovedInFull(p)
  {
    if p.status.Approved? {
      CompletedStepsApproved(p.instances[p.currentVersion - 1], p.owner);
    }
  }

  /** What is approved is what was submitted: while under review or decided the live record is
      the current version's snapshot, and an approval confirms that very version. */
  lemma ApprovedAsSubmitted(c: State, k: nat)
    requires Reachable(c)
    requires k < |c|
    ensures var p := c[k].proposal;
            && (p.status.Frozen() ==> AsVersioned(p))
            && (p.status.Approved? <==> p.confirmed.Some?)
            && (p.status.Approved? ==> ApprovedInFull(p))
  {
    ReachableIsSound(c);
    assert P.Sound(c[k].proposal);
    FrozenAsVersioned(c[k].proposal);
  }

  /** The venue slot a version records. */
  function VersionSlot(v: P.Version): Option<Slot> {
    if v.snapshot.venue.Some? then Some(v.snapshot.venue.value.0) else None
  }

  lemma TakesPlaceWhen(p: P.Proposal)
    requires P.Sound(p) && p.status.Approved?
    ensures p.confirmed.Some? && 0 < p.currentVersion == |p.versions|
    ensures p.confirmed.value.slot == VersionSlot(p.versions[p.currentVersion - 1])
       <==> p.booking.None? || VersionSlot(p.versions[p.currentVersion - 1]) == Some(p.booking.value.slot)
  {
  }

  /** A confirmed event takes place in the slot that was approved exactly when there is no booking,
      or the booking still has that slot. */
  lemma EventTakesPlaceAsApprovedWhen(c: State, k: nat)
    requires Reachable(c)
    requires k < |c| && c[k].proposal.status.Approved?
    ensures var p := c[k].proposal;
            && p.confirmed.Some? && 0 < p.currentVersion == |p.versions|
            && (p.confirmed.value.slot == VersionSlot(p.versions[p.currentVersion - 1])
                <==> p.booking.None? || VersionSlot(p.versions[p.currentVersion - 1]) == Some(p.booking.value.slot))
  {
    ReachableIsSound(c);
    assert P.Sound(c[k].proposal);
    TakesPlaceWhen(c[k].proposal);
  }

  /** At most one workflow instance of a proposal is running, and it is the linked one. */
  lemma OneRunningInstance(c: State, k: nat, n: nat)
    requires Reachable(c)
    requires k < |c| && n < |c[k].proposal.instances|
    requires c[k].proposal.instances[n].status.InProgress?
    ensures var p := c[k].proposal;
            && p.workflow == Some(n) && n == |p.instances| - 1
            && (p.status.Submitted? || p.status.InReview? || p.status.RevisionRequired?)
  {
    ReachableIsSound(c);
  }

  /** The proposal and its workflow never come apart: steps before the pointer approved, steps
      after it untouched, the awaited step as the proposal's status says, and approval exactly
      when the linked instance has completed. */
  lemma WorkflowFollowsProposal(c: State, k: nat)
    requires Reachable(c)
    requires k < |c|
    ensures var p := c[k].proposal;
            && P.Coupled(p)
            && (p.currentVersion > 0 ==>
                  (p.status.Approved? <==> p.instances[p.currentVersion - 1].status.Completed?)
                  && (p.status.Rejected? <==> p.instances[p.currentVersion - 1].status.InstanceRejected?)
                  && (p.status.Cancelled? <==> p.instances[p.currentVersion - 1].status.InstanceCancelled?))
  {
    ReachableIsSound(c);
    assert RequestSound(c[k]);
    if c[k].proposal.currentVersion > 0 { W.PhaseDecides(c[k].proposal); }
  }

  // ---------- versions ----------

  lemma StepExtendsVersions(c: State, op: CampusOp, k: nat)
    requires k < |c|
    ensures k < |Step(c, op)| && c[k].proposal.versions <= Step(c, op)[k].proposal.versions
  {
    match op
    case NewProposal(_, _) =>
    case Edit(n, edit) => if n == k { Ed.EditFrame(c[k].proposal, edit, OtherBookings(c, k)); }
    case Review(n, review) => if n == k { W.VersionsExtend(c[k].proposal, review, OtherBookings(c, k)); }
    case Handle(n, e) =>
      if n == k && c[k].file.Some? {
        HandledKept(c[k], Bound(e, Elsewhere(c, k), VenueOf(c[k].proposal)));
      }
  }

  /** A version, once recorded, stays as it is in every later state. */
  lemma {:induction false} VersionsAreImmutable(c: State, ops: seq<CampusOp>, k: nat, n: nat)
    requires k < |c| && n < |c[k].proposal.versions|
    ensures k < |Run(c, ops)| && n < |Run(c, ops)[k].proposal.versions|
    ensures Run(c, ops)[k].proposal.versions[n] == c[k].proposal.versions[n]
  {
    if ops != [] {
      var before := ops[..|ops| - 1];
      VersionsAreImmutable(c, before, k, n);
      StepExtendsVersions(Run(c, before), ops[|ops| - 1], k);
    }
  }

  // ---------- finality ----------

  /** A decided proposal keeps its status, content, versions, workflow and confirmation; its
      booking may only be released. */
  ghost predicate Kept(p: P.Proposal, p': P.Proposal) {
    && p'.owner == p.owner && p'.status == p.status && p'.content == p.content
    && p'.versions == p.versions && p'.instances == p.instances && p'.workflow == p.workflow
    && p'.confirmed == p.confirmed && p'.currentVersion == p.currentVersion && p'.venue == p.venue
    && (p'.booking == p.booking || p'.booking == W.Released(p.booking))
  }

  lemma FinalEdit(p: P.Proposal, edit: Ed.EditingOp, others: seq<Booking>)
    requires p.status.Final()
    ensures Kept(p, After(p, Ed.Apply(p, edit, others)))
  {
    Ed.EditFrame(p, edit, others);
    Ed.DecidedContentStays(p, edit, others);
  }

  lemma HandledKept(r: Request, op: R.EventOp)
    requires r.file.Some?
    ensures Kept(r.proposal, Handled(r, op).proposal)
  {
  }

  lemma FinalEditStep(c: State, k: nat, edit: Ed.EditingOp)
    requires k < |c| && c[k].proposal.status.Final()
    ensures Kept(c[k].proposal, Edited(c, k, edit)[k].proposal)
  {
    FinalEdit(c[k].proposal, edit, OtherBookings(c, k));
  }

  lemma FinalReviewStep(c: State, k: nat, review: W.WorkflowOp)
    requires k < |c| && P.Coupled(c[k].proposal) && c[k].proposal.status.Final()
    ensures Kept(c[k].proposal, Reviewed(c, k, review)[k].proposal)
  {
    W.DecidedIsFinal(c[k].proposal, review, OtherBookings(c, k));
  }

  lemma FinalHandleStep(c: State, k: nat, op: R.EventOp)
    requires k < |c| && c[k].file.Some?
    ensures Kept(c[k].proposal, HandledAt(c, k, op)[k].proposal)
  {
    HandledKept(c[k], Bound(op, Elsewhere(c, k), VenueOf(c[k].proposal)));
  }

  lemma FinalStep(c: State, op: CampusOp, k: nat)
    requires k < |c| && P.Coupled(c[k].proposal) && c[k].proposal.status.Final()
    ensures k < |Step(c, op)| && Kept(c[k].proposal, Step(c, op)[k].proposal)
  {
    match op
    case NewProposal(_, _) =>
    case Edit(n, edit) => if n == k { FinalEditStep(c, k, edit); }
    case Review(n, review) => if n == k { FinalReviewStep(c, k, review); }
    case Handle(n, e) => if n == k && c[k].file.Some? { FinalHandleStep(c, k, e); }
  }

  lemma {:induction false} FinalForever(c: State, ops: seq<CampusOp>, k: nat)
    requires Sound(c) && k < |c| && c[k].proposal.status.Final()
    ensures k < |Run(c, ops)| && Kept(c[k].proposal, Run(c, ops)[k].proposal)
  {
    if ops != [] {
      var before := ops[..|ops| - 1];
      FinalForever(c, before, k);
      RunKeepsSound(c, before);
      FinalStep(Run(c, before), ops[|ops| - 1], k);
    }
  }

  ghost predicate NothingAwaited(i: P.Instance) { forall s :: s in i.steps ==> !s.status.Pending? }

  /** Nothing left to act on and no hall held. */
  ghost predicate Abandoned(r: Request) {
    var p := r.proposal;
    && (p.booking.None? || !p.booking.value.active)
    && (p.status.Cancelled? && p.workflow.Some? ==>
          p.workflow.value < |p.instances| && NothingAwaited(p.instances[p.workflow.value]))
    && r.file.None?
  }

  lemma RejectedOrCancelledIsAbandoned(r: Request)
    requires RequestSound(r) && (r.proposal.status.Rejected? || r.proposal.status.Cancelled?)
    ensures Abandoned(r)
  {
  }

  /** A rejected or cancelled proposal never leaves its status and never holds a hall again; a
      cancelled one has no pending step in its workflow; neither ever becomes an event. */
  lemma RejectionAndCancellationAreFinal(c: State, ops: seq<CampusOp>, k: nat)
    requires Sound(c) && k < |c| && (c[k].proposal.status.Rejected? || c[k].proposal.status.Cancelled?)
    ensures k < |Run(c, ops)|
    ensures Run(c, ops)[k].proposal.status == c[k].proposal.status && Abandoned(Run(c, ops)[k])
  {
    FinalForever(c, ops, k);
    RunKeepsSound(c, ops);
    RejectedOrCancelledIsAbandoned(Run(c, ops)[k]);
  }

  lemma HandledStaysCancelled(r: Request, op: R.EventOp)
    requires r.file.Some? && r.file.value.status.Cancelled? && !AdvancePending(r.file.value.advance)
    ensures Handled(r, op).file.Some? && Handled(r, op).file.value.status.Cancelled?
  {
    Safety.CancelledStep(r.file.value, op);
  }

  /** Once a request has an event, nothing but an operation on the event touches its record. */
  lemma FileStays(c: State, op: CampusOp, k: nat)
    requires k < |c| && c[k].file.Some? && !(op.Handle? && op.request == k)
    ensures k < |Step(c, op)| && Step(c, op)[k].file == c[k].file
  {
  }

  lemma CancelledHandleStep(c: State, k: nat, op: R.EventOp)
    requires k < |c| && c[k].file.Some? && RequestSound(c[k]) && c[k].file.value.status.Cancelled?
    ensures HandledAt(c, k, op)[k].file.Some? && HandledAt(c, k, op)[k].file.value.status.Cancelled?
  {
    HandledStaysCancelled(c[k], Bound(op, Elsewhere(c, k), VenueOf(c[k].proposal)));
  }

  lemma CancelledEventStep(c: State, op: CampusOp, k: nat)
    requires k < |c| && RequestSound(c[k]) && c[k].file.Some? && c[k].file.value.status.Cancelled?
    ensures k < |Step(c, op)| && Step(c, op)[k].file.Some? && Step(c, op)[k].file.value.status.Cancelled?
  {
    if op.Handle? && op.request == k {
      CancelledHandleStep(c, k, op.handle);
    } else {
      FileStays(c, op, k);
    }
  }

  lemma {:induction false} CancelledEventStays(c: State, ops: seq<CampusOp>, k: nat)
    requires Sound(c) && k < |c| && c[k].file.Some? && c[k].file.value.status.Cancelled?
    ensures k < |Run(c, ops)| && Run(c, ops)[k].file.Some? && Run(c, ops)[k].file.value.status.Cancelled?
  {
    if ops != [] {
      var before := ops[..|ops| - 1];
      CancelledEventStays(c, before, k);
      RunKeepsSound(c, before);
      CancelledEventStep(Run(c, before), ops[|ops| - 1], k);
    }
  }

  /** No booked hall, pending advance, claim or settlement. */
  ghost predicate Unencumbered(r: Request)
    requires r.file.Some?
  {
    && (r.proposal.booking.None? || !r.proposal.booking.value.active)
    && !AdvancePending(r.file.value.advance)
    && r.file.value.settlement.None? && r.file.value.expenses == []
  }

  lemma CancelledIsUnencumbered(r: Request)
    requires RequestSound(r) && r.file.Some? && r.file.value.status.Cancelled?
    ensures Unencumbered(r)
  {
  }

  /** A cancelled event stays cancelled: never again a booked hall, a pending advance, a claim or
      a settlement. */
  lemma EventCancellationIsFinal(c: State, ops: seq<CampusOp>, k: nat)
    requires Sound(c) && k < |c| && c[k].file.Some? && c[k].file.value.status.Cancelled?
    ensures k < |Run(c, ops)| && Run(c, ops)[k].file.Some?
    ensures Run(c, ops)[k].file.value.status.Cancelled? && Unencumbered(Run(c, ops)[k])
  {
    CancelledEventStays(c, ops, k);
    RunKeepsSound(c, ops);
    CancelledIsUnencumbered(Run(c, ops)[k]);
  }
}
