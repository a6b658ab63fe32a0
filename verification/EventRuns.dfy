/** Every run of operations on one confirmed event, and what holds in every state it reaches. */
module EventRuns {
  import opened Common
  import opened Ledger
  import opened Fingerprint
  import opened EventFiles
  import opened SettlementRules
  import opened CloseoutRules
  import X = ExecutionRules
  import E = ExpenseRules

  /** `elsewhere` are the expense rows of all other events at the time of the call. */
  datatype EventOp =
    | ExecutionStep(execution: X.ExecutionOp)
    | ExpenseStep(expense: E.ExpenseOp, elsewhere: seq<Expense>)
    | MoneyStep(money: SettlementOp)
    | CloseoutStep(closeout: CloseoutOp)

  function Attempt(f: EventFile, op: EventOp): Outcome<EventFile> {
    match op
    case ExecutionStep(x) => X.Apply(f, x)
    case ExpenseStep(e, elsewhere) => E.Apply(f, e, elsewhere)
    case MoneyStep(m) => SettlementRules.Apply(f, m)
    case CloseoutStep(c) => CloseoutRules.Apply(f, c)
  }

  function Step(f: EventFile, op: EventOp): EventFile { After(f, Attempt(f, op)) }

  function Run(f: EventFile, ops: seq<EventOp>): EventFile {
    if ops == [] then f else Step(Run(f, ops[..|ops| - 1]), ops[|ops| - 1])
  }

  lemma StepKeepsSound(f: EventFile, op: EventOp)
    requires Sound(f)
    ensures Sound(Step(f, op))
  {
    match op
    case ExecutionStep(x) => X.StepKeepsSound(f, x);
    case ExpenseStep(e, elsewhere) => E.StepKeepsSound(f, e, elsewhere);
    case MoneyStep(m) => SettlementRules.StepKeepsSound(f, m);
    case CloseoutStep(c) => CloseoutRules.StepKeepsSound(f, c);
  }

  lemma StepKeepsSanction(f: EventFile, op: EventOp)
    ensures Step(f, op).sanction == f.sanction
  {
    match op
    case ExecutionStep(x) => X.StepFrame(f, x);
    case ExpenseStep(e, elsewhere) => E.StepFrame(f, e, elsewhere);
    case MoneyStep(m) => SettlementRules.StepFrame(f, m);
    case CloseoutStep(c) =>
      if c.ApproveReopenOp? {
        ApproveReopenFrame(f, c.actor, c.reasonGiven);
      } else {
        CloseoutRules.StepFrame(f, c);
      }
  }

  lemma {:induction false} RunKeepsSound(f: EventFile, ops: seq<EventOp>)
    requires Sound(f)
    ensures Sound(Run(f, ops)) && Run(f, ops).sanction == f.sanction
  {
    if ops != [] {
      RunKeepsSound(f, ops[..|ops| - 1]);
      StepKeepsSound(Run(f, ops[..|ops| - 1]), ops[|ops| - 1]);
      StepKeepsSanction(Run(f, ops[..|ops| - 1]), ops[|ops| - 1]);
    }
  }

  ghost predicate Grantable(sanction: Option<Sanction>) { sanction.Some? ==> 0 <= sanction.value.grant }

  lemma OpenedRunIsSound(startTime: int, sanction: Option<Sanction>, ops: seq<EventOp>)
    requires Grantable(sanction)
    ensures Sound(Run(Opened(startTime, sanction), ops))
    ensures Run(Opened(startTime, sanction), ops).sanction == sanction
  {
    RunKeepsSound(Opened(startTime, sanction), ops);
  }

  // ---------- SETTLED means paid up ----------

  /** Over any number of rounds of preparing, auditing, paying and reopening: a SETTLED settlement
      has advance + all reimbursements - all refunds equal to its payout. */
  lemma SettledMeansPaidUp(startTime: int, sanction: Option<Sanction>, ops: seq<EventOp>, venue: Venue, now: int)
    requires Grantable(sanction)
    ensures var f := Run(Opened(startTime, sanction), ops);
            && PaymentOutstanding !in Blockers(f, venue, now)
            && (f.settlement.Some? && f.settlement.value.status.Settled? ==>
                 var g := f.settlement.value.figures;
                 g.advance + Sum(f.payments, ReimbursedPart) - Sum(f.payments, RefundedPart) == g.payout)
  {
    OpenedRunIsSound(startTime, sanction, ops);
    PaymentNeverOutstanding(Run(Opened(startTime, sanction), ops), venue, now);
  }

  /** Payout within the grant, net cash never negative, and never above grant plus advance. */
  lemma PayoutWithinGrant(startTime: int, sanction: Option<Sanction>, ops: seq<EventOp>)
    requires Grantable(sanction)
    ensures var f := Run(Opened(startTime, sanction), ops);
            f.settlement.Some? ==>
              var s := f.settlement.value;
              && sanction == Some(s.sanction)
              && 0 <= s.figures.payout <= s.sanction.grant
              && 0 <= NetCash(s.figures.advance, f.payments) <= s.sanction.grant + s.figures.advance
  {
    OpenedRunIsSound(startTime, sanction, ops);
  }

  /** The stored balance keeps its meaning in every state: it is all that is due on a draft, at
      most one of the two stated dues is not zero, and they bound what is due ever after. */
  lemma StatedDuesBoundWhatIsDue(startTime: int, sanction: Option<Sanction>, ops: seq<EventOp>)
    requires Grantable(sanction)
    ensures var f := Run(Opened(startTime, sanction), ops);
            f.settlement.Some? ==>
              var s, g := f.settlement.value, f.settlement.value.figures;
              && g.reimbursement - g.refund == g.balance
              && (g.reimbursement == 0 || g.refund == 0)
              && 0 <= Due(s, f.payments) <= g.reimbursement + g.refund
              && (s.status.Drafted? ==>
                    && g.balance == g.payout - NetCash(g.advance, f.payments)
                    && Due(s, f.payments) == g.reimbursement + g.refund)
  {
    OpenedRunIsSound(startTime, sanction, ops);
  }

  // ---------- the grant ceiling, and late disbursal ----------

  ghost predicate WithinGrant(f: EventFile) {
    f.settlement.Some? ==>
      NetCash(f.settlement.value.figures.advance, f.payments) <= f.settlement.value.sanction.grant
  }

  /** An accepted re-preparation that takes in more late advance than the grant has room for. */
  ghost predicate Overdraws(f: EventFile, op: EventOp) {
    && op.MoneyStep? && op.money.PrepareOp? && Attempt(f, op).Accepted? && f.settlement.Some?
    && var s := f.settlement.value;
       DisbursedPart(f.advance) - s.figures.advance > s.sanction.grant - NetCash(s.figures.advance, f.payments)
  }

  /** What a re-preparation adds is the advance disbursed since the last one; it takes net cash
      above the grant exactly when that exceeds the headroom. */
  lemma PreparationExceedsGrantWhen(f: EventFile, actor: Actor)
    requires Sound(f) && f.settlement.Some? && PrepareSettlement(f, actor).Accepted?
    ensures var s, s' := f.settlement.value, PrepareSettlement(f, actor).state.settlement.value;
            var headroom := s.sanction.grant - NetCash(s.figures.advance, f.payments);
            var late := DisbursedPart(f.advance) - s.figures.advance;
            && 0 <= late
            && (NetCash(s'.figures.advance, f.payments) > s'.sanction.grant <==> late > headroom)
  {
  }

  /** The first preparation takes in an advance within the grant, and no payment. */
  lemma FirstPreparationWithinGrant(f: EventFile, actor: Actor)
    requires Sound(f) && f.settlement.None?
    ensures WithinGrant(After(f, PrepareSettlement(f, actor)))
  {
  }

  lemma PaymentStaysWithinGrant(f: EventFile, op: SettlementOp)
    requires Sound(f) && WithinGrant(f) && op.PayOp? && SettlementRules.Apply(f, op).Accepted?
    ensures WithinGrant(SettlementRules.Apply(f, op).state)
  {
    var f' := SettlementRules.Apply(f, op).state;
    var p := f'.payments[|f.payments|];
    assert f'.payments == f.payments + [p];
    NetCashAfterPayment(f.settlement.value.figures.advance, f.payments, p);
  }

  lemma PreparationWithinGrantWhen(f: EventFile, actor: Actor)
    requires Sound(f) && WithinGrant(f)
    ensures WithinGrant(Step(f, MoneyStep(PrepareOp(actor)))) <==> !Overdraws(f, MoneyStep(PrepareOp(actor)))
  {
    if f.settlement.None? {
      FirstPreparationWithinGrant(f, actor);
    } else if PrepareSettlement(f, actor).Accepted? {
      PreparationExceedsGrantWhen(f, actor);
    }
  }

  /** Steps that neither prepare nor pay move no figure and no payment. */
  lemma OtherMoneyStepStaysWithinGrant(f: EventFile, op: SettlementOp)
    requires WithinGrant(f) && !op.PrepareOp? && !op.PayOp?
    ensures WithinGrant(After(f, SettlementRules.Apply(f, op)))
  {
    if f.settlement.Some? { FiguresStay(f, op); }
  }

  lemma MoneyStepWithinGrantWhen(f: EventFile, op: SettlementOp)
    requires Sound(f) && WithinGrant(f)
    ensures WithinGrant(Step(f, MoneyStep(op))) <==> !Overdraws(f, MoneyStep(op))
  {
    if op.PrepareOp? {
      PreparationWithinGrantWhen(f, op.actor);
    } else if !op.PayOp? {
      OtherMoneyStepStaysWithinGrant(f, op);
    } else if SettlementRules.Apply(f, op).Accepted? {
      PaymentStaysWithinGrant(f, op);
    }
  }

  /** A step takes net cash above the grant exactly when it is such a re-preparation. */
  lemma StepWithinGrantWhen(f: EventFile, op: EventOp)
    requires Sound(f) && WithinGrant(f)
    ensures WithinGrant(Step(f, op)) <==> !Overdraws(f, op)
  {
    match op
    case ExecutionStep(x) => X.StepFrame(f, x);
    case ExpenseStep(e, elsewhere) => E.StepFrame(f, e, elsewhere);
    case MoneyStep(m) => MoneyStepWithinGrantWhen(f, m);
    case CloseoutStep(c) =>
      if c.ApproveReopenOp? {
        ApproveReopenFrame(f, c.actor, c.reasonGiven);
      } else {
        CloseoutRules.StepFrame(f, c);
      }
  }

  ghost predicate AlwaysWithinGrant(f: EventFile, ops: seq<EventOp>) {
    WithinGrant(Run(f, ops)) && (ops != [] ==> AlwaysWithinGrant(f, ops[..|ops| - 1]))
  }

  ghost predicate NeverOverdraws(f: EventFile, ops: seq<EventOp>) {
    ops == [] ||
    var before := ops[..|ops| - 1];
    NeverOverdraws(f, before) && !Overdraws(Run(f, before), ops[|ops| - 1])
  }

  /** Net cash stays within the sanctioned grant through a whole run exactly when none of its
      re-preparations takes in more late advance than the grant then has room for. */
  lemma {:induction false} AlwaysWithinGrantWhen(startTime: int, sanction: Option<Sanction>, ops: seq<EventOp>)
    requires Grantable(sanction)
    ensures AlwaysWithinGrant(Opened(startTime, sanction), ops) <==> NeverOverdraws(Opened(startTime, sanction), ops)
  {
    if ops != [] {
      var before := ops[..|ops| - 1];
      AlwaysWithinGrantWhen(startTime, sanction, before);
      OpenedRunIsSound(startTime, sanction, before);
      if WithinGrant(Run(Opened(startTime, sanction), before)) {
        StepWithinGrantWhen(Run(Opened(startTime, sanction), before), ops[|ops| - 1]);
      } else {
        NotAlwaysWithinGrant(Opened(startTime, sanction), before);
      }
    }
  }

  lemma NotAlwaysWithinGrant(f: EventFile, ops: seq<EventOp>)
    requires !WithinGrant(Run(f, ops))
    ensures !AlwaysWithinGrant(f, ops)
  {
  }

  ghost predicate DisbursesLate(f: EventFile, op: EventOp) {
    && op.MoneyStep? && op.money.DisburseAdvanceOp? && Attempt(f, op).Accepted?
    && f.settlement.Some?
  }

  /** No advance is disbursed once a settlement has been prepared. */
  ghost predicate DisbursedOnTime(f: EventFile, ops: seq<EventOp>) {
    ops == [] ||
    var before := ops[..|ops| - 1];
    DisbursedOnTime(f, before) && !DisbursesLate(Run(f, before), ops[|ops| - 1])
  }

  /** The settlement knows of the whole advance. */
  ghost predicate AdvanceKnown(f: EventFile) {
    f.settlement.Some? ==> f.settlement.value.figures.advance == DisbursedPart(f.advance)
  }

  lemma MoneyStepKeepsAdvanceKnown(f: EventFile, op: SettlementOp)
    requires AdvanceKnown(f) && !DisbursesLate(f, MoneyStep(op))
    ensures AdvanceKnown(Step(f, MoneyStep(op)))
  {
    if SettlementRules.Apply(f, op).Accepted? && !op.PrepareOp? && f.settlement.Some? {
      FiguresStay(f, op);
      DisbursedStays(f, op);
    }
  }

  lemma StepKeepsAdvanceKnown(f: EventFile, op: EventOp)
    requires AdvanceKnown(f) && !DisbursesLate(f, op)
    ensures AdvanceKnown(Step(f, op))
  {
    match op
    case ExecutionStep(x) => X.StepFrame(f, x);
    case ExpenseStep(e, elsewhere) => E.StepFrame(f, e, elsewhere);
    case MoneyStep(m) => MoneyStepKeepsAdvanceKnown(f, m);
    case CloseoutStep(c) =>
      if c.ApproveReopenOp? {
        ApproveReopenFrame(f, c.actor, c.reasonGiven);
      } else {
        CloseoutRules.StepFrame(f, c);
      }
  }

  /** Without a late disbursal no preparation can overdraw, so net cash never exceeds the grant,
      and the settlement always knows of the whole advance. */
  lemma {:induction false} NetCashWithinGrant(startTime: int, sanction: Option<Sanction>, ops: seq<EventOp>)
    requires Grantable(sanction)
    requires DisbursedOnTime(Opened(startTime, sanction), ops)
    ensures AlwaysWithinGrant(Opened(startTime, sanction), ops)
    ensures AdvanceKnown(Run(Opened(startTime, sanction), ops))
  {
    if ops != [] {
      var f, before := Opened(startTime, sanction), ops[..|ops| - 1];
      NetCashWithinGrant(startTime, sanction, before);
      StepKeepsAdvanceKnown(Run(f, before), ops[|ops| - 1]);
      AlwaysWithinGrantWhen(startTime, sanction, before);
      assert NeverOverdraws(f, ops);
      AlwaysWithinGrantWhen(startTime, sanction, ops);
    }
  }

  // ---------- audits ----------

  /** The stored figures are the ones the live ledgers give, and nothing is undecided. */
  ghost predicate Live(s: Settlement, f: EventFile) {
    && f.sanction == Some(s.sanction)
    && s.figures.verified == Sum(f.expenses, VerifiedPart)
    && s.figures.income == Sum(f.incomes, IncomePart)
    && s.figures.advance == DisbursedPart(f.advance)
    && s.figures.payout == Min(s.sanction.grant, Max(0, Sum(f.expenses, VerifiedPart) - Sum(f.incomes, IncomePart)))
    && (forall e :: e in f.expenses ==> e.Terminal())
    && (forall i :: i in f.incomes ==> !i.status.Recorded?)
    && !AdvancePending(f.advance)
  }

  lemma NotStaleIsLive(f: EventFile, found: bool)
    requires Sound(f) && f.settlement.Some? && Staleness(f, f.settlement.value, found).None?
    ensures Live(f.settlement.value, f)
  {
    forall e | e in f.expenses
      ensures e.Terminal()
    {
      assert !e.Unresolved();
    }
  }

  /** Whenever an audit goes through, approving or querying, even after a reopening resubmitted
      without being prepared again, the stored figures are live at that moment. */
  lemma AuditedIsLive(f: EventFile, actor: Actor, decision: Decision, found: bool)
    requires Sound(f) && AuditSettlement(f, actor, decision, found).Accepted?
    ensures var f' := AuditSettlement(f, actor, decision, found).state;
            f'.settlement.Some? && Live(f'.settlement.value, f')
  {
    NotStaleIsLive(f, found);
  }

  /** So they are whenever a settlement is submitted. */
  lemma SubmittedIsLive(f: EventFile, actor: Actor, found: bool)
    requires Sound(f) && SubmitSettlement(f, actor, found).Accepted?
    ensures var f' := SubmitSettlement(f, actor, found).state;
            f'.settlement.Some? && Live(f'.settlement.value, f')
  {
    NotStaleIsLive(f, found);
  }

  /** When the prepared fingerprint is found, comparing it is the whole stale-data check: the
      aggregate comparisons add nothing. */
  lemma FingerprintSubsumesAggregates(f: EventFile)
    requires Sound(f) && f.settlement.Some? && SourcesResolved(f)
    ensures var s := f.settlement.value;
            Staleness(f, s, true).None? <==> s.fingerprint == LiveFingerprint(f, s.sanction)
  {
    var s := f.settlement.value;
    FingerprintFixesTotals(s.sanction.version, s.sanction.grant, f.expenses, f.incomes, f.advance);
  }

  /** So a settlement prepared from `prepared` is stale exactly when some entry differs now. */
  lemma StaleExactlyWhenSourcesDiffer(prepared: EventFile, f: EventFile)
    requires Sound(prepared) && Sound(f) && f.settlement.Some? && SourcesResolved(f)
    requires f.settlement.value.fingerprint == LiveFingerprint(prepared, f.settlement.value.sanction)
    ensures Staleness(f, f.settlement.value, true).None?
       <==> && AdvanceEntryOf(prepared.advance) == AdvanceEntryOf(f.advance)
            && multiset(Mapped(prepared.expenses, ExpenseEntryOf)) == multiset(Mapped(f.expenses, ExpenseEntryOf))
            && multiset(Mapped(prepared.incomes, IncomeEntryOf)) == multiset(Mapped(f.incomes, IncomeEntryOf))
  {
    FingerprintSubsumesAggregates(f);
    var k := f.settlement.value.sanction;
    SameFingerprintSameSources(k.version, k.grant, prepared.expenses, prepared.incomes, prepared.advance,
                               k.version, k.grant, f.expenses, f.incomes, f.advance);
  }

  // ---------- payments ----------

  /** An accepted payment is positive, never overshoots, takes exactly its amount off what is
      due, and settles the settlement exactly when nothing is left. */
  lemma PaymentReducesDue(f: EventFile, actor: Actor, kind: PaymentKind, amount: int, referenceGiven: bool,
                          proof: Option<Document>)
    requires Sound(f) && RecordPayment(f, actor, kind, amount, referenceGiven, proof).Accepted?
    ensures var f' := RecordPayment(f, actor, kind, amount, referenceGiven, proof).state;
            var before, after := Due(f.settlement.value, f.payments), Due(f'.settlement.value, f'.payments);
            && 0 < amount <= before
            && after == before - amount
            && (f'.settlement.value.status.Settled? <==> after == 0)
            && |f'.payments| == |f.payments| + 1 && f.payments <= f'.payments
            && f'.settlement.value.figures == f.settlement.value.figures
  {
    var f' := RecordPayment(f, actor, kind, amount, referenceGiven, proof).state;
    NetCashAfterPayment(f.settlement.value.figures.advance, f.payments, f'.payments[|f.payments|]);
    assert f'.payments == f.payments + [f'.payments[|f.payments|]];
  }

  ghost predicate Reopens(op: EventOp) {
    || (op.MoneyStep? && op.money.ReopenOp?)
    || (op.CloseoutStep? && op.closeout.ApproveReopenOp?)
  }

  /** Steps that are neither payments nor reopenings leave a settlement in payment alone. */
  lemma OtherStepsLeaveRoundAlone(f: EventFile, op: EventOp)
    requires f.settlement.Some? && InPayment(f.settlement.value)
    requires !Reopens(op) && !(op.MoneyStep? && op.money.PayOp?)
    ensures Step(f, op).settlement == f.settlement && Step(f, op).payments == f.payments
    ensures Step(f, op).revisions == f.revisions
  {
    match op
    case ExecutionStep(x) => X.StepFrame(f, x);
    case ExpenseStep(e, elsewhere) => E.StepFrame(f, e, elsewhere);
    case MoneyStep(m) => PaymentStatusStays(f, m);
    case CloseoutStep(c) => CloseoutRules.StepFrame(f, c);
  }

  lemma RoundStep(f: EventFile, op: EventOp)
    requires Sound(f) && f.settlement.Some? && InPayment(f.settlement.value) && !Reopens(op)
    ensures var f' := Step(f, op);
            && f'.settlement.Some? && InPayment(f'.settlement.value)
            && f'.settlement.value.figures == f.settlement.value.figures
            && f.payments <= f'.payments
            && |f'.payments| - |f.payments|
               <= Due(f.settlement.value, f.payments) - Due(f'.settlement.value, f'.payments)
  {
    if op.MoneyStep? && op.money.PayOp? {
      var m := op.money;
      if RecordPayment(f, m.actor, m.kind, m.amount, m.referenceGiven, m.proof).Accepted? {
        PaymentReducesDue(f, m.actor, m.kind, m.amount, m.referenceGiven, m.proof);
      }
    } else {
      OtherStepsLeaveRoundAlone(f, op);
    }
  }

  /** One round of payments: from approval on, without a reopening, cash moves only towards the
      payout, every paisa paid comes off the due, and the due bounds the number of payments. */
  lemma {:induction false} RoundIsBounded(f: EventFile, ops: seq<EventOp>)
    requires Sound(f) && f.settlement.Some? && InPayment(f.settlement.value)
    requires forall op :: op in ops ==> !Reopens(op)
    ensures var f' := Run(f, ops);
            && f'.settlement.Some? && InPayment(f'.settlement.value)
            && f'.settlement.value.figures == f.settlement.value.figures
            && f.payments <= f'.payments
            && 0 <= Due(f'.settlement.value, f'.payments)
            && |f'.payments| - |f.payments|
               <= Due(f.settlement.value, f.payments) - Due(f'.settlement.value, f'.payments)
  {
    RunKeepsSound(f, ops);
    if ops != [] {
      var before, op := ops[..|ops| - 1], ops[|ops| - 1];
      RoundIsBounded(f, before);
      RunKeepsSound(f, before);
      RoundStep(Run(f, before), op);
    }
  }

  // ---------- histories ----------

  /** Every reopening ever made left a snapshot that was itself settled and paid up, with a
      prefix of today's payments; revisions are numbered 1..n in both histories. */
  lemma EverySnapshotIsBalanced(startTime: int, sanction: Option<Sanction>, ops: seq<EventOp>, i: nat)
    requires Grantable(sanction) && i < |Run(Opened(startTime, sanction), ops).revisions|
    ensures var f := Run(Opened(startTime, sanction), ops);
            var r := f.revisions[i];
            && r.number == i + 1 && r.settlement.status.Settled? && r.payments <= f.payments
            && NetCash(r.settlement.figures.advance, r.payments) == r.settlement.figures.payout
            && |f.closureRevisions| <= |f.revisions|
            && (forall j :: 0 <= j < |f.closureRevisions| ==> f.closureRevisions[j].number == j + 1)
  {
    OpenedRunIsSound(startTime, sanction, ops);
  }

  ghost predicate Certifies(f: EventFile, op: EventOp) {
    op.CloseoutStep? && op.closeout.CertifyCloseoutOp? && Attempt(f, op).Accepted?
  }

  /** How many closures a run certified. */
  ghost function Certifications(f: EventFile, ops: seq<EventOp>): nat {
    if ops == [] then 0
    else
      var before := ops[..|ops| - 1];
      Certifications(f, before) + (if Certifies(Run(f, before), ops[|ops| - 1]) then 1 else 0)
  }

  lemma CertificationStep(f: EventFile, op: EventOp)
    ensures |Step(f, op).closureRevisions| + (if Step(f, op).status.Sealed() then 1 else 0)
         == |f.closureRevisions| + (if f.status.Sealed() then 1 else 0) + (if Certifies(f, op) then 1 else 0)
  {
    match op
    case ExecutionStep(x) => X.StepFrame(f, x);
    case ExpenseStep(e, elsewhere) => E.StepFrame(f, e, elsewhere);
    case MoneyStep(m) => SettlementRules.StepFrame(f, m);
    case CloseoutStep(c) =>
  }

  /** Every certified closure is either in force or kept in the closure history. */
  lemma {:induction false} CertificationsAreKept(startTime: int, sanction: Option<Sanction>, ops: seq<EventOp>)
    ensures var f := Run(Opened(startTime, sanction), ops);
            Certifications(Opened(startTime, sanction), ops)
            == |f.closureRevisions| + (if f.status.Sealed() then 1 else 0)
  {
    if ops != [] {
      var before := ops[..|ops| - 1];
      CertificationsAreKept(startTime, sanction, before);
      CertificationStep(Run(Opened(startTime, sanction), before), ops[|ops| - 1]);
    }
  }

  ghost predicate Extends(f: EventFile, f': EventFile) {
    f.payments <= f'.payments && f.revisions <= f'.revisions && f.closureRevisions <= f'.closureRevisions
  }

  lemma StepExtends(f: EventFile, op: EventOp)
    ensures Extends(f, Step(f, op))
  {
    match op
    case ExecutionStep(x) => X.StepFrame(f, x);
    case ExpenseStep(e, elsewhere) => E.StepFrame(f, e, elsewhere);
    case MoneyStep(m) => SettlementRules.StepExtends(f, m);
    case CloseoutStep(c) =>
      if c.ApproveReopenOp? {
        ApproveReopenExtends(f, c.actor, c.reasonGiven);
      } else {
        CloseoutRules.StepFrame(f, c);
      }
  }

  /** Payments and histories are append-only along any run. */
  lemma {:induction false} HistoryIsAppendOnly(f: EventFile, ops: seq<EventOp>)
    ensures Extends(f, Run(f, ops))
  {
    if ops != [] {
      HistoryIsAppendOnly(f, ops[..|ops| - 1]);
      StepExtends(Run(f, ops[..|ops| - 1]), ops[|ops| - 1]);
    }
  }
}
