/** All proposals and confirmed events together: one list of requests, each a proposal and, once
    approved, the record of its event. Operations on one request see the bookings and the
    expense claims of all the others. */
module Campus {
  import opened Common
  import opened Ledger
  import opened Bookings
  import opened Invoices
  import P = Proposals
  import Ed = EditingRules
  import W = WorkflowRules
  import F = EventFiles
  import C = CloseoutRules
  import X = ExecutionRules
  import R = EventRuns
  import Ex = ExpenseRules
  import S = SettlementRules
  import Budgets

  datatype Request = Request(proposal: P.Proposal, file: Option<F.EventFile>)

  type State = seq<Request>

  function ExpensesOf(r: Request): seq<Expense> { if r.file.Some? then r.file.value.expenses else [] }

  function BookingOf(r: Request): seq<Booking> { if r.proposal.booking.Some? then [r.proposal.booking.value] else [] }

  /** The expense rows of every request but the k-th. */
  function Elsewhere(c: State, k: nat): seq<Expense> {
    if c == [] then []
    else
      var n := |c| - 1;
      Elsewhere(c[..n], k) + (if n == k then [] else ExpensesOf(c[n]))
  }

  /** The booking table without the k-th request. */
  function OtherBookings(c: State, k: nat): seq<Booking> {
    if c == [] then []
    else
      var n := |c| - 1;
      OtherBookings(c[..n], k) + (if n == k then [] else BookingOf(c[n]))
  }

  // ---------- operations ----------

  datatype CampusOp =
    | NewProposal(owner: nat, content: P.Content)
    | Edit(request: nat, edit: Ed.EditingOp)
    | Review(request: nat, review: W.WorkflowOp)
    | Handle(request: nat, handle: R.EventOp)

  /** The sanction of an event: the budget figures of the version it was approved in. */
  function SanctionOf(e: P.Confirmed): Option<F.Sanction> {
    if e.snapshot.budget.None? then None
    else
      var (income, contribution, total, _) := e.snapshot.budget.value;
      Some(F.Sanction(e.version, contribution, total, income))
  }

  function StartOf(e: P.Confirmed): int {
    if e.slot.Some? then e.slot.value.start
    else if e.snapshot.content.date.Some? then e.snapshot.content.date.value
    else 0
  }

  /** The final approval opens the record of the confirmed event. */
  function WithFile(p: P.Proposal, file: Option<F.EventFile>): Request {
    if p.confirmed.Some? && file.None?
    then Request(p, Some(F.Opened(StartOf(p.confirmed.value), SanctionOf(p.confirmed.value))))
    else Request(p, file)
  }

  function VenueOf(p: P.Proposal): C.Venue {
    if p.booking.Some? && p.booking.value.active then C.BookedUntil(p.booking.value.slot.end) else C.NoBooking
  }

  /** An event operation as it is evaluated here: against the real booking and the real claims of
      all other events. */
  function Bound(op: R.EventOp, elsewhere: seq<Expense>, venue: C.Venue): R.EventOp {
    match op
    case ExpenseStep(e, _) => R.ExpenseStep(e, elsewhere)
    case CloseoutStep(RequestCloseoutOp(actor, _, now)) => R.CloseoutStep(C.RequestCloseoutOp(actor, venue, now))
    case CloseoutStep(CertifyCloseoutOp(actor, delegated, cleared, _, now)) =>
      R.CloseoutStep(C.CertifyCloseoutOp(actor, delegated, cleared, venue, now))
    case _ => op
  }

  predicate Cancels(op: R.EventOp) { op.ExecutionStep? && op.execution.CancelOp? }

  function Handled(r: Request, op: R.EventOp): Request
    requires r.file.Some?
  {
    var o := R.Attempt(r.file.value, op);
    if o.Refused? then r
    else Request(if Cancels(op) then W.ReleaseHall(r.proposal) else r.proposal, Some(o.state))
  }

  function Edited(c: State, k: nat, edit: Ed.EditingOp): State
    requires k < |c|
  {
    c[k := WithFile(After(c[k].proposal, Ed.Apply(c[k].proposal, edit, OtherBookings(c, k))), c[k].file)]
  }

  function Reviewed(c: State, k: nat, review: W.WorkflowOp): State
    requires k < |c|
  {
    c[k := WithFile(After(c[k].proposal, W.Apply(c[k].proposal, review, OtherBookings(c, k))), c[k].file)]
  }

  function HandledAt(c: State, k: nat, op: R.EventOp): State
    requires k < |c| && c[k].file.Some?
  {
    c[k := Handled(c[k], Bound(op, Elsewhere(c, k), VenueOf(c[k].proposal)))]
  }

  function Step(c: State, op: CampusOp): State {
    match op
    case NewProposal(owner, content) => c + [Request(P.NewDraft(owner, content), None)]
    case Edit(k, edit) => if k < |c| then Edited(c, k, edit) else c
    case Review(k, review) => if k < |c| then Reviewed(c, k, review) else c
    case Handle(k, op) => if k < |c| && c[k].file.Some? then HandledAt(c, k, op) else c
  }

  function Run(c: State, ops: seq<CampusOp>): State {
    if ops == [] then c else Step(Run(c, ops[..|ops| - 1]), ops[|ops| - 1])
  }

  // ---------- what holds everywhere ----------

  ghost predicate RequestSound(r: Request) {
    && P.Sound(r.proposal)
    && (r.file.Some? <==> r.proposal.confirmed.Some?)
    && (r.file.Some? ==>
          && F.Sound(r.file.value)
          && r.file.value.sanction == SanctionOf(r.proposal.confirmed.value)
          && (r.file.value.status.Cancelled? ==> r.proposal.booking.None? || !r.proposal.booking.value.active))
  }

  ghost predicate Apart(a: Request, b: Request) {
    a.proposal.booking.Some? && b.proposal.booking.Some?
    && a.proposal.booking.value.active && b.proposal.booking.value.active ==>
      !Overlaps(a.proposal.booking.value.slot, b.proposal.booking.value.slot)
  }

  /** No two active bookings of one hall overlap. */
  ghost predicate HallsExclusive(c: State) {
    forall i, j :: 0 <= i < |c| && 0 <= j < |c| && i != j ==> Apart(c[i], c[j])
  }

  /** Two live claims of one invoice are in the same event and on the same bill. */
  ghost predicate InvoicesUnique(c: State) {
    && (forall i :: 0 <= i < |c| ==> CleanWithin(ExpensesOf(c[i])))
    && (forall i, j :: 0 <= i < |c| && 0 <= j < |c| && i != j ==> CleanAcross(ExpensesOf(c[i]), ExpensesOf(c[j])))
  }

  ghost predicate Sound(c: State) {
    && (forall k :: 0 <= k < |c| ==> RequestSound(c[k]))
    && HallsExclusive(c)
    && InvoicesUnique(c)
  }

  // ---------- the other requests' rows ----------

  lemma {:induction false} ElsewhereHolds(c: State, k: nat, j: nat, e: Expense)
    requires j < |c| && j != k && e in ExpensesOf(c[j])
    ensures e in Elsewhere(c, k)
  {
    var n := |c| - 1;
    if j < n {
      ElsewhereHolds(c[..n], k, j, e);
    }
  }

  lemma {:induction false} ElsewhereComesFrom(c: State, k: nat, e: Expense) returns (j: nat)
    requires e in Elsewhere(c, k)
    ensures j < |c| && j != k && e in ExpensesOf(c[j])
  {
    var n := |c| - 1;
    if e in Elsewhere(c[..n], k) {
      j := ElsewhereComesFrom(c[..n], k, e);
    } else {
      j := n;
    }
  }

  lemma {:induction false} OtherBookingsMean(c: State, k: nat, b: Booking)
    ensures b in OtherBookings(c, k) <==> exists j :: 0 <= j < |c| && j != k && b in BookingOf(c[j])
  {
    if c != [] {
      var n := |c| - 1;
      OtherBookingsMean(c[..n], k, b);
      if exists j :: 0 <= j < |c| && j != k && b in BookingOf(c[j]) {
        var j :| 0 <= j < |c| && j != k && b in BookingOf(c[j]);
        assert j < n ==> c[..n][j] == c[j];
      }
      if b in OtherBookings(c[..n], k) {
        var j :| 0 <= j < n && j != k && b in BookingOf(c[..n][j]);
        assert c[..n][j] == c[j];
      }
    }
  }

  // ---------- proposals ----------

  /** A booking is only ever taken or reactivated when it clashes with no other. */
  lemma ReviewKeepsBookingClear(p: P.Proposal, op: W.WorkflowOp, others: seq<Booking>)
    ensures var p' := After(p, W.Apply(p, op, others));
            p'.booking.Some? && p'.booking.value.active ==>
              p'.booking == p.booking || !AnyClash(p'.booking.value.slot, others)
  {
  }

  lemma ApartFromOthers(c: State, k: nat, r: Request)
    requires k < |c| && HallsExclusive(c)
    requires r.proposal.booking.Some? && r.proposal.booking.value.active ==>
               r.proposal.booking == c[k].proposal.booking
               || !AnyClash(r.proposal.booking.value.slot, OtherBookings(c, k))
    ensures HallsExclusive(c[k := r])
  {
    forall j | 0 <= j < |c| && j != k
      ensures Apart(r, c[j]) && Apart(c[j], r)
    {
      if r.proposal.booking == c[k].proposal.booking {
        assert Apart(c[k], c[j]) && Apart(c[j], c[k]);
      } else if c[j].proposal.booking.Some? {
        var b := c[j].proposal.booking.value;
        assert b in BookingOf(c[j]);
        OtherBookingsMean(c, k, b);
      }
    }
  }

  lemma InvoicesStay(c: State, k: nat, r: Request)
    requires k < |c| && InvoicesUnique(c) && ExpensesOf(r) == ExpensesOf(c[k])
    ensures InvoicesUnique(c[k := r])
  {
    var c' := c[k := r];
    assert forall i :: 0 <= i < |c| ==> ExpensesOf(c'[i]) == ExpensesOf(c[i]);
  }

  lemma ProposalStepKeepsRequestSound(r: Request, p: P.Proposal)
    requires RequestSound(r) && P.Sound(p)
    requires r.proposal.confirmed.Some? ==> p.confirmed == r.proposal.confirmed && p.booking == r.proposal.booking
    ensures RequestSound(WithFile(p, r.file)) && ExpensesOf(WithFile(p, r.file)) == ExpensesOf(r)
  {
    if p.confirmed.Some? && r.file.None? {
      WithinCap(p);
    }
  }

  lemma WithinCap(p: P.Proposal)
    requires P.Sound(p) && p.confirmed.Some?
    ensures var s := SanctionOf(p.confirmed.value);
            s.Some? ==> 0 <= s.value.grant <= Budgets.CAP
  {
    var last := p.versions[|p.versions| - 1];
    assert p.confirmed.value.snapshot == last.snapshot;
  }

  lemma EditStepKeepsSound(c: State, k: nat, edit: Ed.EditingOp)
    requires Sound(c) && k < |c|
    ensures Sound(Edited(c, k, edit))
  {
    var others := OtherBookings(c, k);
    var p := After(c[k].proposal, Ed.Apply(c[k].proposal, edit, others));
    Ed.EditFrame(c[k].proposal, edit, others);
    Ed.EditKeepsSound(c[k].proposal, edit, others);
    ProposalStepKeepsRequestSound(c[k], p);
    ApartFromOthers(c, k, WithFile(p, c[k].file));
    InvoicesStay(c, k, WithFile(p, c[k].file));
  }

  lemma ReviewStepKeepsSound(c: State, k: nat, review: W.WorkflowOp)
    requires Sound(c) && k < |c|
    ensures Sound(Reviewed(c, k, review))
  {
    var others := OtherBookings(c, k);
    var p := After(c[k].proposal, W.Apply(c[k].proposal, review, others));
    W.StepKeepsSound(c[k].proposal, review, others);
    if c[k].proposal.confirmed.Some? {
      W.DecidedIsFinal(c[k].proposal, review, others);
    }
    ProposalStepKeepsRequestSound(c[k], p);
    ReviewKeepsBookingClear(c[k].proposal, review, others);
    ApartFromOthers(c, k, WithFile(p, c[k].file));
    InvoicesStay(c, k, WithFile(p, c[k].file));
  }

  // ---------- events ----------

  lemma ReleasingKeepsSound(p: P.Proposal)
    requires P.Sound(p) && p.confirmed.Some?
    ensures P.Sound(W.ReleaseHall(p))
  {
    assert P.SnapshotOf(W.ReleaseHall(p)) == P.SnapshotOf(p);
    assert P.Coupled(W.ReleaseHall(p));
  }

  lemma HandledKeepsRequestSound(r: Request, op: R.EventOp)
    requires RequestSound(r) && r.file.Some?
    ensures RequestSound(Handled(r, op))
  {
    R.StepKeepsSound(r.file.value, op);
    R.StepKeepsSanction(r.file.value, op);
    OnlyCancellingCancels(r.file.value, op);
    ReleasingKeepsSound(r.proposal);
  }

  lemma OnlyCancellingCancels(f: F.EventFile, op: R.EventOp)
    ensures R.Step(f, op).status.Cancelled? ==> f.status.Cancelled? || (Cancels(op) && R.Attempt(f, op).Accepted?)
  {
    match op
    case ExecutionStep(x) =>
    case ExpenseStep(e, elsewhere) => Ex.StepFrame(f, e, elsewhere);
    case MoneyStep(m) => S.StepFrame(f, m);
    case CloseoutStep(c) =>
  }

  lemma OtherStepsKeepExpenses(f: F.EventFile, op: R.EventOp)
    requires !op.ExpenseStep?
    ensures R.Step(f, op).expenses == f.expenses
  {
    match op
    case ExecutionStep(x) => X.StepFrame(f, x);
    case MoneyStep(m) => S.StepFrame(f, m);
    case CloseoutStep(c) =>
      if c.ApproveReopenOp? {
        C.ApproveReopenFrame(f, c.actor, c.reasonGiven);
      } else {
        C.StepFrame(f, c);
      }
  }

  lemma HandledKeepsInvoices(c: State, k: nat, op: R.EventOp)
    requires Sound(c) && k < |c| && c[k].file.Some?
    requires op.ExpenseStep? ==> op.elsewhere == Elsewhere(c, k)
    ensures InvoicesUnique(c[k := Handled(c[k], op)])
  {
    var f, r := c[k].file.value, Handled(c[k], op);
    if op.ExpenseStep? {
      forall a, b | a in f.expenses && b in op.elsewhere
        ensures !SameLive(a, b)
      {
        var j := ElsewhereComesFrom(c, k, b);
        assert CleanAcross(ExpensesOf(c[k]), ExpensesOf(c[j]));
      }
      StepKeepsInvoicesUnique(f, op.expense, op.elsewhere);
      ReplacedLedgerIsClean(c, k, r);
    } else {
      OtherStepsKeepExpenses(f, op);
      InvoicesStay(c, k, r);
    }
  }

  lemma ReplacedLedgerIsClean(c: State, k: nat, r: Request)
    requires InvoicesUnique(c) && k < |c|
    requires CleanWithin(ExpensesOf(r)) && CleanAcross(ExpensesOf(r), Elsewhere(c, k))
    ensures InvoicesUnique(c[k := r])
  {
    forall j | 0 <= j < |c| && j != k
      ensures CleanAcross(ExpensesOf(r), ExpensesOf(c[j])) && CleanAcross(ExpensesOf(c[j]), ExpensesOf(r))
    {
      forall a, b | a in ExpensesOf(r) && b in ExpensesOf(c[j])
        ensures !SameLive(a, b) && !SameLive(b, a)
      {
        ElsewhereHolds(c, k, j, b);
      }
    }
  }

  lemma HandledBooking(r: Request, op: R.EventOp)
    requires r.file.Some?
    ensures var b := Handled(r, op).proposal.booking;
            b == r.proposal.booking || b == W.Released(r.proposal.booking)
  {
  }

  /** Whatever rows a caller names, the claims compared with are those of the other requests. */
  lemma BoundToElsewhere(op: R.EventOp, elsewhere: seq<Expense>, venue: C.Venue)
    ensures var bound := Bound(op, elsewhere, venue);
            bound.ExpenseStep? ==> bound.elsewhere == elsewhere
  {
  }

  lemma HandledRequestKeepsSound(c: State, k: nat, op: R.EventOp)
    requires Sound(c) && k < |c| && c[k].file.Some?
    requires op.ExpenseStep? ==> op.elsewhere == Elsewhere(c, k)
    ensures Sound(c[k := Handled(c[k], op)])
  {
    var r := Handled(c[k], op);
    HandledKeepsRequestSound(c[k], op);
    HandledKeepsInvoices(c, k, op);
    HandledBooking(c[k], op);
    ApartFromOthers(c, k, r);
  }

  lemma HandleStepKeepsSound(c: State, k: nat, op: R.EventOp)
    requires Sound(c) && k < |c| && c[k].file.Some?
    ensures Sound(HandledAt(c, k, op))
  {
    BoundToElsewhere(op, Elsewhere(c, k), VenueOf(c[k].proposal));
    HandledRequestKeepsSound(c, k, Bound(op, Elsewhere(c, k), VenueOf(c[k].proposal)));
  }

  lemma DraftIsSound(owner: nat, content: P.Content)
    ensures RequestSound(Request(P.NewDraft(owner, content), None))
  {
  }

  /** A request without booking or claims disturbs nobody. */
  lemma BareRequestKeepsSound(c: State, r: Request)
    requires Sound(c) && RequestSound(r) && r.proposal.booking.None? && r.file.None?
    ensures Sound(c + [r])
  {
    var c' := c + [r];
    assert forall k :: 0 <= k < |c'| ==> c'[k] == (if k < |c| then c[k] else r);
  }

  lemma NewProposalKeepsSound(c: State, owner: nat, content: P.Content)
    requires Sound(c)
    ensures Sound(Step(c, NewProposal(owner, content)))
  {
    DraftIsSound(owner, content);
    BareRequestKeepsSound(c, Request(P.NewDraft(owner, content), None));
  }

  lemma StepKeepsSound(c: State, op: CampusOp)
    requires Sound(c)
    ensures Sound(Step(c, op))
  {
    match op
    case NewProposal(owner, content) => NewProposalKeepsSound(c, owner, content);
    case Edit(k, edit) => if k < |c| { EditStepKeepsSound(c, k, edit); }
    case Review(k, review) => if k < |c| { ReviewStepKeepsSound(c, k, review); }
    case Handle(k, e) => if k < |c| && c[k].file.Some? { HandleStepKeepsSound(c, k, e); }
  }

  lemma {:induction false} RunKeepsSound(c: State, ops: seq<CampusOp>)
    requires Sound(c)
    ensures Sound(Run(c, ops))
  {
    if ops != [] {
      RunKeepsSound(c, ops[..|ops| - 1]);
      StepKeepsSound(Run(c, ops[..|ops| - 1]), ops[|ops| - 1]);
    }
  }
}
