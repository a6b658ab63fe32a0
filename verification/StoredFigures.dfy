/** How far the figures a settlement stores lag behind the ledgers: totals only ever grow, and only
    preparation catches up with them. */
module StoredFigures {
  import opened Common
  import opened Ledger
  import opened EventFiles
  import opened SettlementRules
  import opened CloseoutRules
  import opened EventRuns
  import X = ExecutionRules
  import E = ExpenseRules

  /** What a settlement is computed from. */
  datatype Source = Claims | Incomes | CashAdvance

  /** What a source adds up to now. */
  function Total(f: EventFile, source: Source): int {
    match source
    case Claims => Sum(f.expenses, VerifiedPart)
    case Incomes => Sum(f.incomes, IncomePart)
    case CashAdvance => DisbursedPart(f.advance)
  }

  /** What the settlement says it added up to. */
  function Stored(s: Settlement, source: Source): int {
    match source
    case Claims => s.figures.verified
    case Incomes => s.figures.income
    case CashAdvance => s.figures.advance
  }

  /** A claim verified in full or in part, an income verified, an advance disbursed. */
  ghost predicate Gains(f: EventFile, op: EventOp, source: Source) {
    && Attempt(f, op).Accepted?
    && match source
       case Claims =>
         op.ExpenseStep? && op.expense.RuleOp? && (op.expense.ruling.VerifyInFull? || op.expense.ruling.VerifyPart?)
       case Incomes => op.MoneyStep? && op.money.VerifyIncomeOp?
       case CashAdvance => op.MoneyStep? && op.money.DisburseAdvanceOp?
  }

  ghost predicate Prepares(f: EventFile, op: EventOp) {
    op.MoneyStep? && op.money.PrepareOp? && Attempt(f, op).Accepted?
  }

  /** The source has gained since the last accepted preparation, or since the start. */
  ghost predicate GainedSince(f: EventFile, ops: seq<EventOp>, source: Source) {
    ops != [] &&
    var before, op := ops[..|ops| - 1], ops[|ops| - 1];
    !Prepares(Run(f, before), op) && (GainedSince(f, before, source) || Gains(Run(f, before), op, source))
  }

  // ---------- totals only grow ----------

  /** How much a step adds to a total: the whole claim verified in full, the part verified, the
      amount of the income verified, the amount disbursed. */
  function Gain(f: EventFile, op: EventOp, source: Source): int {
    if Attempt(f, op).Refused? then 0
    else
      match source
      case Claims =>
        if op.ExpenseStep? && op.expense.RuleOp? then RulingGain(f, op.expense.id, op.expense.ruling) else 0
      case Incomes => if op.MoneyStep? && op.money.VerifyIncomeOp? then IncomeGain(f, op.money.id) else 0
      case CashAdvance => if op.MoneyStep? && op.money.DisburseAdvanceOp? then op.money.amount else 0
  }

  function RulingGain(f: EventFile, id: nat, ruling: E.Ruling): int {
    match ruling
    case VerifyInFull =>
      var at := Find(f.expenses, ExpenseId, id);
      if at.Some? then f.expenses[at.value].claimed else 0
    case VerifyPart(amount) => amount
    case _ => 0
  }

  function IncomeGain(f: EventFile, id: nat): int {
    var at := Find(f.incomes, IncomeId, id);
    if at.Some? then f.incomes[at.value].amount else 0
  }

  /** The total grows by this much. */
  ghost predicate Grows(f: EventFile, f': EventFile, source: Source, gain: int) {
    Total(f', source) == Total(f, source) + gain
  }

  /** A step grows a total by its gain, which is positive exactly when the step is one that gains. */
  ghost predicate GrowsAsGained(f: EventFile, op: EventOp, source: Source) {
    && Grows(f, Step(f, op), source, Gain(f, op, source))
    && 0 <= Gain(f, op, source)
    && (0 < Gain(f, op, source) <==> Gains(f, op, source))
  }

  lemma RulingGrowsClaims(f: EventFile, actor: Actor, id: nat, ruling: E.Ruling)
    requires ExpensesSound(f.expenses) && E.RuleOnExpense(f, actor, id, ruling).Accepted?
    ensures Grows(f, E.RuleOnExpense(f, actor, id, ruling).state, Claims, RulingGain(f, id, ruling))
    ensures 0 <= RulingGain(f, id, ruling)
    ensures 0 < RulingGain(f, id, ruling) <==> ruling.VerifyInFull? || ruling.VerifyPart?
  {
    var at := E.SubmittedClaim(f, actor, id).state;
    assert f.expenses[at] in f.expenses && f.expenses[at].Sound();
    SumOfUpdate(f.expenses, at, E.Ruled(f.expenses[at], ruling), VerifiedPart);
  }

  lemma SubmissionKeepsClaims(expenses: seq<Expense>, ids: seq<nat>, submitter: nat)
    ensures Sum(Mapped(expenses, (e: Expense) => E.SubmittedRow(e, ids, submitter)), VerifiedPart)
         == Sum(expenses, VerifiedPart)
  {
    SumOfMapped(expenses, (e: Expense) => E.SubmittedRow(e, ids, submitter), VerifiedPart, VerifiedPart);
  }

  /** Drafting, amending, deleting and submitting touch claims that count for nothing yet. */
  lemma DraftingKeepsClaims(f: EventFile, op: E.ExpenseOp, elsewhere: seq<Expense>)
    requires !op.RuleOp? && E.Apply(f, op, elsewhere).Accepted?
    ensures Total(E.Apply(f, op, elsewhere).state, Claims) == Total(f, Claims)
  {
    match op
    case CreateExpenseOp(_, _, _) =>
      SumOfAppend(f.expenses, E.Apply(f, op, elsewhere).state.expenses[|f.expenses|], VerifiedPart);
    case UpdateExpenseOp(_, id, patch) =>
      var at := Find(f.expenses, ExpenseId, id).value;
      SumOfUpdate(f.expenses, at, E.Amended(f.expenses[at], patch), VerifiedPart);
    case DeleteExpenseOp(_, id) => SumOfRemoveAt(f.expenses, Find(f.expenses, ExpenseId, id).value, VerifiedPart);
    case SubmitExpensesOp(actor, ids) => SubmissionKeepsClaims(f.expenses, ids, actor.id);
  }

  lemma ExpenseStepGrows(f: EventFile, op: E.ExpenseOp, elsewhere: seq<Expense>, source: Source)
    requires ExpensesSound(f.expenses)
    ensures GrowsAsGained(f, ExpenseStep(op, elsewhere), source)
  {
    E.StepFrame(f, op, elsewhere);
    if source.Claims? && E.Apply(f, op, elsewhere).Accepted? {
      if op.RuleOp? {
        RulingGrowsClaims(f, op.actor, op.id, op.ruling);
      } else {
        DraftingKeepsClaims(f, op, elsewhere);
      }
    }
  }

  lemma IncomeStepGrows(f: EventFile, op: SettlementOp)
    requires IncomesSound(f.incomes) && SettlementRules.Apply(f, op).Accepted?
    requires op.RecordIncomeOp? || op.VerifyIncomeOp? || op.RejectIncomeOp?
    ensures var gain := if op.VerifyIncomeOp? then IncomeGain(f, op.id) else 0;
            Grows(f, SettlementRules.Apply(f, op).state, Incomes, gain)
    ensures op.VerifyIncomeOp? ==> 0 < IncomeGain(f, op.id)
  {
    var f' := SettlementRules.Apply(f, op).state;
    if op.RecordIncomeOp? {
      SumOfAppend(f.incomes, f'.incomes[|f.incomes|], IncomePart);
    } else {
      var at := Find(f.incomes, IncomeId, op.id).value;
      assert f.incomes[at] in f.incomes;
      SumOfUpdate(f.incomes, at, f'.incomes[at], IncomePart);
    }
  }

  lemma OtherMoneyStepKeepsIncomes(f: EventFile, op: SettlementOp)
    requires !op.RecordIncomeOp? && !op.VerifyIncomeOp? && !op.RejectIncomeOp?
    ensures After(f, SettlementRules.Apply(f, op)).incomes == f.incomes
  {
  }

  lemma DisbursalGrowsAdvance(f: EventFile, op: SettlementOp)
    requires AdvanceSound(f.advance, f.sanction) && op.DisburseAdvanceOp? && SettlementRules.Apply(f, op).Accepted?
    ensures Grows(f, SettlementRules.Apply(f, op).state, CashAdvance, op.amount) && 0 < op.amount
  {
  }

  lemma MoneyStepGrows(f: EventFile, op: SettlementOp, source: Source)
    requires IncomesSound(f.incomes) && AdvanceSound(f.advance, f.sanction)
    ensures GrowsAsGained(f, MoneyStep(op), source)
  {
    match source
    case Claims => SettlementRules.StepFrame(f, op);
    case Incomes =>
      if !op.RecordIncomeOp? && !op.VerifyIncomeOp? && !op.RejectIncomeOp? {
        OtherMoneyStepKeepsIncomes(f, op);
      } else if SettlementRules.Apply(f, op).Accepted? {
        IncomeStepGrows(f, op);
      }
    case CashAdvance =>
      if !op.DisburseAdvanceOp? {
        DisbursedStays(f, op);
      } else if SettlementRules.Apply(f, op).Accepted? {
        DisbursalGrowsAdvance(f, op);
      }
  }

  /** Every operation adds exactly its gain to a total, and none ever takes anything off one. */
  lemma StepGrows(f: EventFile, op: EventOp, source: Source)
    requires ExpensesSound(f.expenses) && IncomesSound(f.incomes) && AdvanceSound(f.advance, f.sanction)
    ensures GrowsAsGained(f, op, source)
  {
    match op
    case ExecutionStep(x) => X.StepFrame(f, x);
    case ExpenseStep(e, elsewhere) => ExpenseStepGrows(f, e, elsewhere, source);
    case MoneyStep(m) => MoneyStepGrows(f, m, source);
    case CloseoutStep(c) =>
      if c.ApproveReopenOp? {
        ApproveReopenFrame(f, c.actor, c.reasonGiven);
      } else {
        CloseoutRules.StepFrame(f, c);
      }
  }

  // ---------- stored figures lag behind ----------

  /** Only preparation changes what a settlement has stored, and nothing but preparation creates
      or removes one. */
  lemma StoredStays(f: EventFile, op: EventOp, source: Source)
    requires !Prepares(f, op)
    ensures var f' := Step(f, op);
            && f'.settlement.Some? == f.settlement.Some?
            && (f.settlement.Some? ==> Stored(f'.settlement.value, source) == Stored(f.settlement.value, source))
  {
    match op
    case ExecutionStep(x) => X.StepFrame(f, x);
    case ExpenseStep(e, elsewhere) => E.StepFrame(f, e, elsewhere);
    case MoneyStep(m) => MoneyStepKeepsStored(f, m, source);
    case CloseoutStep(c) =>
      if c.ApproveReopenOp? {
        ApproveReopenKeepsStored(f, c.actor, c.reasonGiven, source);
      } else {
        CloseoutRules.StepFrame(f, c);
      }
  }

  lemma MoneyStepKeepsStored(f: EventFile, op: SettlementOp, source: Source)
    requires !(op.PrepareOp? && SettlementRules.Apply(f, op).Accepted?)
    ensures var f' := After(f, SettlementRules.Apply(f, op));
            && f'.settlement.Some? == f.settlement.Some?
            && (f.settlement.Some? ==> Stored(f'.settlement.value, source) == Stored(f.settlement.value, source))
  {
    if f.settlement.Some? && !op.PrepareOp? { FiguresStay(f, op); }
  }

  lemma ApproveReopenKeepsStored(f: EventFile, actor: Actor, reasonGiven: bool, source: Source)
    ensures var f' := After(f, ApproveReopen(f, actor, reasonGiven));
            && f'.settlement.Some? == f.settlement.Some?
            && (f.settlement.Some? ==> Stored(f'.settlement.value, source) == Stored(f.settlement.value, source))
  {
  }

  lemma PreparationCatchesUp(f: EventFile, op: EventOp, source: Source)
    requires Prepares(f, op)
    ensures var f' := Step(f, op); f'.settlement.Some? && Stored(f'.settlement.value, source) == Total(f', source)
  {
  }

  /** The stored figure never exceeds the live total, and lags behind it exactly when the source
      gained. */
  ghost predicate Lags(f: EventFile, source: Source, gained: bool) {
    f.settlement.Some? ==>
      var stored := Stored(f.settlement.value, source);
      if gained then stored < Total(f, source) else stored == Total(f, source)
  }

  lemma StepLags(f: EventFile, op: EventOp, source: Source, gained: bool)
    requires Sound(f) && Lags(f, source, gained)
    ensures Lags(Step(f, op), source, !Prepares(f, op) && (gained || Gains(f, op, source)))
  {
    if Prepares(f, op) {
      PreparationCatchesUp(f, op, source);
    } else {
      StoredStays(f, op, source);
      StepGrows(f, op, source);
    }
  }

  /** Along every run, each stored figure is the live total if and only if that source has gained
      nothing since the last accepted preparation, and is less otherwise. */
  lemma {:induction false} StoredIsTotalWhen(startTime: int, sanction: Option<Sanction>, ops: seq<EventOp>,
                                             source: Source)
    requires Grantable(sanction)
    ensures var f := Opened(startTime, sanction);
            Lags(Run(f, ops), source, GainedSince(f, ops, source))
  {
    if ops != [] {
      var f, before := Opened(startTime, sanction), ops[..|ops| - 1];
      StoredIsTotalWhen(startTime, sanction, before, source);
      OpenedRunIsSound(startTime, sanction, before);
      StepLags(Run(f, before), ops[|ops| - 1], source, GainedSince(f, before, source));
    }
  }

  /** What a source gained since the last accepted preparation, or since the start. */
  function GainSince(f: EventFile, ops: seq<EventOp>, source: Source): int {
    if ops == [] then 0
    else
      var before, op := ops[..|ops| - 1], ops[|ops| - 1];
      if op.MoneyStep? && op.money.PrepareOp? && Attempt(Run(f, before), op).Accepted? then 0
      else GainSince(f, before, source) + Gain(Run(f, before), op, source)
  }

  ghost predicate LagsBy(f: EventFile, source: Source, gain: int) {
    f.settlement.Some? ==> Total(f, source) == Stored(f.settlement.value, source) + gain
  }

  lemma StepLagsBy(f: EventFile, op: EventOp, source: Source, gain: int)
    requires Sound(f) && LagsBy(f, source, gain)
    ensures LagsBy(Step(f, op), source, if Prepares(f, op) then 0 else gain + Gain(f, op, source))
  {
    if Prepares(f, op) {
      PreparationCatchesUp(f, op, source);
    } else {
      StoredStays(f, op, source);
      StepGrows(f, op, source);
    }
  }

  /** Along every run a stored figure lags behind the live total by exactly what was verified or
      disbursed since the last accepted preparation. */
  lemma {:induction false} StoredLagsByGain(startTime: int, sanction: Option<Sanction>, ops: seq<EventOp>,
                                            source: Source)
    requires Grantable(sanction)
    ensures var f := Opened(startTime, sanction); LagsBy(Run(f, ops), source, GainSince(f, ops, source))
  {
    if ops != [] {
      var f, before := Opened(startTime, sanction), ops[..|ops| - 1];
      StoredLagsByGain(startTime, sanction, before, source);
      OpenedRunIsSound(startTime, sanction, before);
      StepLagsBy(Run(f, before), ops[|ops| - 1], source, GainSince(f, before, source));
    }
  }

  // ---------- what closing does not look at ----------

  /** What the club really holds: the live advance, and every payment. */
  function LiveCash(f: EventFile): int { NetCash(DisbursedPart(f.advance), f.payments) }

  lemma SettledCash(f: EventFile)
    requires Sound(f) && f.settlement.Some? && f.settlement.value.status.Settled?
    ensures var g := f.settlement.value.figures; LiveCash(f) == g.payout + (DisbursedPart(f.advance) - g.advance)
  {
  }

  /** A SETTLED settlement is paid up by its own books. The cash really held is more by exactly the
      advance disbursed since the preparation: it is the payout if and only if no advance was
      disbursed since the last one. */
  lemma LiveCashIsPayoutWhen(startTime: int, sanction: Option<Sanction>, ops: seq<EventOp>)
    requires Grantable(sanction)
    ensures var start := Opened(startTime, sanction);
            var f := Run(start, ops);
            && (f.status.Sealed() ==> f.settlement.Some? && f.settlement.value.status.Settled?)
            && (f.settlement.Some? && f.settlement.value.status.Settled? ==>
                 var g := f.settlement.value.figures;
                 && g.advance <= DisbursedPart(f.advance)
                 && LiveCash(f) == g.payout + (DisbursedPart(f.advance) - g.advance)
                 && (LiveCash(f) == g.payout <==> !GainedSince(start, ops, CashAdvance))
                 && (LiveCash(f) == g.payout <==> AdvanceKnown(f))
                 && (DisbursedOnTime(start, ops) ==> LiveCash(f) == g.payout))
  {
    var f := Run(Opened(startTime, sanction), ops);
    OpenedRunIsSound(startTime, sanction, ops);
    StoredIsTotalWhen(startTime, sanction, ops, CashAdvance);
    if f.settlement.Some? && f.settlement.value.status.Settled? { SettledCash(f); }
    if DisbursedOnTime(Opened(startTime, sanction), ops) {
      NetCashWithinGrant(startTime, sanction, ops);
    }
  }

  ghost predicate Behind(f: EventFile, source: Source) {
    f.settlement.Some? && Stored(f.settlement.value, source) < Total(f, source)
  }

  ghost predicate AnyBehind(f: EventFile) { Behind(f, Claims) || Behind(f, Incomes) || Behind(f, CashAdvance) }

  /** Since the last accepted preparation a claim was verified in full or in part, an income
      verified, or an advance disbursed. */
  ghost predicate AnyGainedSince(f: EventFile, ops: seq<EventOp>) {
    GainedSince(f, ops, Claims) || GainedSince(f, ops, Incomes) || GainedSince(f, ops, CashAdvance)
  }

  /** A settlement is behind its ledgers exactly when some of them gained since the preparation,
      and equal to them in every total otherwise. */
  lemma BehindWhen(startTime: int, sanction: Option<Sanction>, ops: seq<EventOp>)
    requires Grantable(sanction)
    ensures var start := Opened(startTime, sanction);
            var f := Run(start, ops);
            f.settlement.Some? ==>
              && (AnyBehind(f) <==> AnyGainedSince(start, ops))
              && (!AnyBehind(f) ==>
                    && f.settlement.value.figures.verified == Sum(f.expenses, VerifiedPart)
                    && f.settlement.value.figures.income == Sum(f.incomes, IncomePart)
                    && f.settlement.value.figures.advance == DisbursedPart(f.advance))
  {
    StoredIsTotalWhen(startTime, sanction, ops, Claims);
    StoredIsTotalWhen(startTime, sanction, ops, Incomes);
    StoredIsTotalWhen(startTime, sanction, ops, CashAdvance);
  }

  lemma SealedLiveByTotals(f: EventFile)
    requires Sound(f) && f.status.Sealed()
    ensures Live(f.settlement.value, f)
       <==> && f.settlement.value.figures.verified == Sum(f.expenses, VerifiedPart)
            && f.settlement.value.figures.income == Sum(f.incomes, IncomePart)
            && f.settlement.value.figures.advance == DisbursedPart(f.advance)
  {
    forall e | e in f.expenses
      ensures e.Terminal()
    {
      assert !e.Unresolved();
    }
  }

  /** Closing does not repeat the stale-data check. The figures of a closed or archived event agree
      with its ledgers if and only if none of them gained since the last preparation. */
  lemma SealedIsLiveWhen(startTime: int, sanction: Option<Sanction>, ops: seq<EventOp>)
    requires Grantable(sanction) && Run(Opened(startTime, sanction), ops).status.Sealed()
    ensures var start := Opened(startTime, sanction);
            var f := Run(start, ops);
            f.settlement.Some? && (Live(f.settlement.value, f) <==> !AnyGainedSince(start, ops))
  {
    var f := Run(Opened(startTime, sanction), ops);
    OpenedRunIsSound(startTime, sanction, ops);
    SealedLiveByTotals(f);
    BehindWhen(startTime, sanction, ops);
  }

  /** That is what the stale-data check, on the aggregates, would have found. */
  lemma SealedIsLiveWhenNotStale(f: EventFile)
    requires Sound(f) && f.status.Sealed()
    ensures Live(f.settlement.value, f) <==> Staleness(f, f.settlement.value, false).None?
  {
    if Staleness(f, f.settlement.value, false).None? {
      NotStaleIsLive(f, false);
    }
  }

  // ---------- a draft overtaken by its sources ----------

  /** Prepared, and not yet approved. */
  ghost predicate InPreparation(s: Settlement) {
    s.status.Drafted? || s.status.UnderAudit? || s.status.SettlementQueried?
  }

  ghost predicate Overtaken(f: EventFile) {
    f.settlement.Some? && InPreparation(f.settlement.value) && AnyBehind(f)
  }

  lemma OvertakenIsStale(f: EventFile, found: bool)
    requires Overtaken(f)
    ensures Staleness(f, f.settlement.value, found).Some?
  {
  }

  /** It cannot be submitted or audited, being stale; prepared again, not being REOPENED; paid, not
      being approved; or reopened, not being SETTLED. */
  lemma OvertakenMoneyStep(f: EventFile, op: SettlementOp)
    requires Overtaken(f)
    ensures var f' := After(f, SettlementRules.Apply(f, op));
            f'.settlement == f.settlement && f'.payments == f.payments && f'.revisions == f.revisions
  {
    if op.SubmitOp? || op.AuditOp? { OvertakenIsStale(f, op.found); }
  }

  lemma OvertakenStaysPut(f: EventFile, op: EventOp)
    requires Sound(f) && Overtaken(f)
    ensures Step(f, op).settlement == f.settlement && Step(f, op).payments == f.payments
  {
    match op
    case ExecutionStep(x) => X.StepFrame(f, x);
    case ExpenseStep(e, elsewhere) => E.StepFrame(f, e, elsewhere);
    case MoneyStep(m) => OvertakenMoneyStep(f, m);
    case CloseoutStep(c) =>
      if c.ApproveReopenOp? {
        assert !f.status.Closed?;
      } else {
        CloseoutRules.StepFrame(f, c);
      }
  }

  lemma OvertakenStep(f: EventFile, op: EventOp)
    requires Sound(f) && Overtaken(f)
    ensures Step(f, op).settlement == f.settlement && Step(f, op).payments == f.payments
    ensures Overtaken(Step(f, op))
  {
    OvertakenStaysPut(f, op);
    StepGrows(f, op, Claims);
    StepGrows(f, op, Incomes);
    StepGrows(f, op, CashAdvance);
  }

  /** A draft overtaken by its sources is a dead end: it is told that it must be recalculated, but
      nothing recalculates it. No run changes the settlement, and the event never closes. */
  lemma {:induction false} OvertakenForever(f: EventFile, ops: seq<EventOp>)
    requires Sound(f) && Overtaken(f)
    ensures Run(f, ops).settlement == f.settlement && Run(f, ops).payments == f.payments
    ensures Overtaken(Run(f, ops)) && !Run(f, ops).status.Sealed()
  {
    RunKeepsSound(f, ops);
    if ops != [] {
      var before := ops[..|ops| - 1];
      OvertakenForever(f, before);
      RunKeepsSound(f, before);
      OvertakenStep(Run(f, before), ops[|ops| - 1]);
    }
  }

  /** Along a run a settlement not yet approved is overtaken exactly when some source has gained
      since it was prepared. */
  lemma OvertakenWhen(startTime: int, sanction: Option<Sanction>, ops: seq<EventOp>)
    requires Grantable(sanction)
    ensures var start := Opened(startTime, sanction);
            var f := Run(start, ops);
            f.settlement.Some? && InPreparation(f.settlement.value) ==> (Overtaken(f) <==> AnyGainedSince(start, ops))
  {
    BehindWhen(startTime, sanction, ops);
  }
}
