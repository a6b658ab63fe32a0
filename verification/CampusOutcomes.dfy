/** What ties one service to another: the budget that was approved becomes the sanction, the claims
    of one event are seen by every other, and the hall keeps an event from being closed. */
module CampusOutcomes {
  import opened Common
  import opened Ledger
  import opened Bookings
  import opened Campus
  import opened CampusRuns
  import P = Proposals
  import F = EventFiles
  import R = EventRuns
  import E = ExpenseRules
  import C = CloseoutRules
  import Claims = ExpenseOutcomes
  import Delivery = DeliveryOutcomes

  // ---------- the sanction ----------

  lemma SanctionIsBudget(r: Request)
    requires RequestSound(r) && r.file.Some?
    ensures match r.proposal.budget
            case None => r.file.value.sanction == None
            case Some(b) =>
              r.file.value.sanction == Some(F.Sanction(r.proposal.currentVersion, b.contribution, b.total, b.income))
  {
  }

  /** In every reachable state a confirmed event is sanctioned exactly the budget of its proposal,
      which is the one that was approved: the grant is the institutional contribution asked for. */
  lemma GrantIsApprovedContribution(c: State, k: nat)
    requires Reachable(c)
    requires k < |c| && c[k].file.Some?
    ensures match c[k].proposal.budget
            case None => c[k].file.value.sanction == None
            case Some(b) =>
              c[k].file.value.sanction
              == Some(F.Sanction(c[k].proposal.currentVersion, b.contribution, b.total, b.income))
  {
    ReachableIsSound(c);
    assert RequestSound(c[k]);
    SanctionIsBudget(c[k]);
  }

  /** A confirmation opens a scheduled, empty record, starting when its slot does, or on the date
      that was planned when there is no slot. */
  lemma ConfirmationOpensEvent(p: P.Proposal)
    requires p.confirmed.Some?
    ensures WithFile(p, None).file.Some? && WithFile(p, None).proposal == p
    ensures var e, f := p.confirmed.value, WithFile(p, None).file.value;
            && f.status == F.Scheduled && f.report == None && f.advance == None && f.settlement == None
            && f.closure == None
            && f.expenses == [] && f.incomes == [] && f.payments == [] && f.revisions == [] && f.closureRevisions == []
            && (e.slot.Some? ==> f.startTime == e.slot.value.start)
            && (e.slot == None && e.snapshot.content.date.Some? ==> f.startTime == e.snapshot.content.date.value)
  {
  }

  // ---------- invoices across events ----------

  /** Once a numbered invoice is claimed in one event, no other event accepts it. */
  lemma InvoiceIsRefusedElsewhere(c: State, i: nat, j: nat, actor: Actor, id: nat, claim: E.Claim,
                                  actor': Actor, id': nat, claim': E.Claim)
    requires i < |c| && j < |c| && i != j && c[i].file.Some? && c[j].file.Some?
    requires E.CreateExpense(c[i].file.value, actor, id, claim, Elsewhere(c, i)).Accepted? && claim.invoice.Some?
    requires claim'.vendor == claim.vendor && claim'.invoice == claim.invoice
    requires claim'.invoiceDate == claim.invoiceDate
    ensures var c' := HandledAt(c, i, R.ExpenseStep(E.CreateExpenseOp(actor, id, claim), []));
            && |c'[i].file.value.expenses| == |c[i].file.value.expenses| + 1
            && HandledAt(c', j, R.ExpenseStep(E.CreateExpenseOp(actor', id', claim'), [])) == c'
  {
    var f, elsewhere := c[i].file.value, Elsewhere(c, i);
    var c' := HandledAt(c, i, R.ExpenseStep(E.CreateExpenseOp(actor, id, claim), []));
    var f' := E.CreateExpense(f, actor, id, claim, elsewhere).state;
    assert c'[i].file == Some(f') && c'[j] == c[j];
    forall e | e in f'.expenses
      ensures e in Elsewhere(c', j)
    {
      ElsewhereHolds(c', j, i, e);
    }
    Claims.InvoiceIsNotClaimedTwice(f, actor, id, claim, elsewhere, c[j].file.value, actor', id', claim',
                                    Elsewhere(c', j));
  }

  // ---------- closing and the hall ----------

  ghost predicate HallReleased(p: P.Proposal, now: int) {
    p.booking.Some? && p.booking.value.active ==> p.booking.value.slot.end <= now
  }

  /** Whatever a caller says of the hall, an event is neither put up for closing nor closed before
      its own booking has ended. */
  lemma ClosingWaitsForHall(r: Request, actor: Actor, delegated: bool, venueCleared: bool, said: C.Venue, now: int)
    requires r.file.Some?
    ensures var f := r.file.value;
            var request := R.CloseoutStep(C.RequestCloseoutOp(actor, said, now));
            var certify := R.CloseoutStep(C.CertifyCloseoutOp(actor, delegated, venueCleared, said, now));
            && (f.status == F.Completed && R.Attempt(f, Bound(request, [], VenueOf(r.proposal))).Accepted? ==>
                  HallReleased(r.proposal, now))
            && (R.Attempt(f, Bound(certify, [], VenueOf(r.proposal))).Accepted? ==> HallReleased(r.proposal, now))
  {
    var f, venue := r.file.value, VenueOf(r.proposal);
    Delivery.CloseoutIsRequestedWhen(f, actor, venue, now);
    Delivery.CloseoutIsCertifiedWhen(f, actor, delegated, venueCleared, venue, now);
  }
}
