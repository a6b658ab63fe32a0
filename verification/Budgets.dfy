/** The budget of a proposal: line items, income, institutional contribution. */
module Budgets {
  import opened Common
  import Ledger

  datatype FinanceStatus = FinancePending | FinanceVerified | FinanceQueried

  datatype Estimate = Estimate(description: string, category: Ledger.Category, amount: int, notes: Option<string>)

  datatype LineItem = LineItem(id: nat, estimate: Estimate)

  datatype Budget = Budget(
    income: int,
    contribution: int,
    total: int,
    items: seq<LineItem>,
    finance: FinanceStatus
  ) {
    /** The part of a budget that a proposal version records. */
    function Figures(): (int, int, int, seq<Estimate>) { (income, contribution, total, Mapped(items, EstimateOf)) }
  }

  /** The institutional contribution cap per event, 30000.00 rupees in paise. */
  const CAP := 3_000_000

  function ItemId(i: LineItem): nat { i.id }

  function EstimateOf(i: LineItem): Estimate { i.estimate }

  function AmountOf(i: LineItem): int { i.estimate.amount }

  ghost predicate Sound(b: Budget) {
    && 0 <= b.income
    && 0 <= b.contribution <= CAP
    && b.total == Sum(b.items, AmountOf)
    && Ledger.UniqueIds(b.items, ItemId)
    && forall i :: i in b.items ==> 0 < i.estimate.amount
  }

  /** What is budgeted beyond income and contribution; the policy asks it not to be negative. */
  function Slack(b: Budget): int { b.total - b.income - b.contribution }

  // ---------- header ----------

  function Create(income: int, contribution: int, items: seq<LineItem>): Outcome<Budget> {
    var total := Sum(items, AmountOf);
    if income < 0 || contribution < 0 || (exists i :: i in items && i.estimate.amount <= 0) then Refused(Unprocessable)
    else if contribution > CAP then Refused(CapExceeded)
    else if items != [] && income + contribution > total then Refused(BadRequest)
    else if !Ledger.UniqueIds(items, ItemId) then Refused(IntegrityViolation)
    else Accepted(Budget(income, contribution, total, items, FinancePending))
  }

  function Update(b: Budget, income: Option<int>, contribution: Option<int>): Outcome<Budget> {
    var income' := if income.Some? then income.value else b.income;
    var contribution' := if contribution.Some? then contribution.value else b.contribution;
    if income' < 0 || contribution' < 0 then Refused(Unprocessable)
    else if contribution' > CAP then Refused(CapExceeded)
    else if b.total > 0 && income' + contribution' > b.total then Refused(BadRequest)
    else Accepted(b.(income := income', contribution := contribution'))
  }

  // ---------- line items ----------

  function AddItem(b: Budget, item: LineItem): Outcome<Budget> {
    if item.estimate.amount <= 0 then Refused(Unprocessable)
    else if Ledger.Find(b.items, ItemId, item.id).Some? then Refused(IntegrityViolation)
    else
      var items := b.items + [item];
      Accepted(b.(items := items, total := Sum(items, AmountOf)))
  }

  function UpdateItem(b: Budget, id: nat, estimate: Estimate): Outcome<Budget> {
    var at := Ledger.Find(b.items, ItemId, id);
    if estimate.amount <= 0 then Refused(Unprocessable)
    else if at.None? then Refused(NotFound)
    else
      var items := b.items[at.value := LineItem(id, estimate)];
      Accepted(b.(items := items, total := Sum(items, AmountOf)))
  }

  function DeleteItem(b: Budget, id: nat): Outcome<Budget> {
    var at := Ledger.Find(b.items, ItemId, id);
    if at.None? then Refused(NotFound)
    else
      var items := RemoveAt(b.items, at.value);
      Accepted(b.(items := items, total := Sum(items, AmountOf)))
  }

  datatype BudgetOp =
    | UpdateHeader(income: Option<int>, contribution: Option<int>)
    | AddLine(item: LineItem)
    | UpdateLine(id: nat, estimate: Estimate)
    | DeleteLine(id: nat)

  function Apply(b: Budget, op: BudgetOp): Outcome<Budget> {
    match op
    case UpdateHeader(income, contribution) => Update(b, income, contribution)
    case AddLine(item) => AddItem(b, item)
    case UpdateLine(id, estimate) => UpdateItem(b, id, estimate)
    case DeleteLine(id) => DeleteItem(b, id)
  }

  lemma CreateIsSound(income: int, contribution: int, items: seq<LineItem>)
    ensures var o := Create(income, contribution, items); o.Accepted? ==> Sound(o.state)
  {
  }

  /** Creation checks the policy only when there are line items: a budget without any meets it
      exactly when it asks for nothing. */
  lemma SlackAfterCreate(income: int, contribution: int, items: seq<LineItem>)
    requires Create(income, contribution, items).Accepted?
    ensures 0 <= Slack(Create(income, contribution, items).state) <==> items != [] || income + contribution == 0
  {
  }

  /** Positive items have a positive total, so the total is zero exactly when there are none. */
  lemma {:induction false} TotalIsPositive(items: seq<LineItem>)
    requires items != [] && forall i :: i in items ==> 0 < i.estimate.amount
    ensures 0 < Sum(items, AmountOf)
  {
    if |items| > 1 {
      TotalIsPositive(items[..|items| - 1]);
    }
  }

  /** The contribution stays within the cap and the total stays the sum of the items. */
  lemma StepKeepsSound(b: Budget, op: BudgetOp)
    requires Sound(b)
    ensures Sound(After(b, Apply(b, op)))
  {
    if op.UpdateLine? && Apply(b, op).Accepted? {
      var at := Ledger.Find(b.items, ItemId, op.id).value;
      var b' := Apply(b, op).state;
      forall i | i in b'.items
        ensures 0 < i.estimate.amount
      {
        var k :| 0 <= k < |b'.items| && b'.items[k] == i;
        assert k != at ==> b.items[k] in b.items;
      }
    }
  }

  /** Which edits can break the policy that income and contribution stay within the total. Adding
      an item never does once it holds. A header update is checked only while there are line
      items, so without any it keeps the policy exactly when it asks for nothing. Replacing and
      deleting an item are not checked, and keep it exactly when the amount lost fits the slack. */
  lemma SlackAfterEdit(b: Budget, op: BudgetOp)
    requires Sound(b) && 0 <= Slack(b) && Apply(b, op).Accepted?
    ensures var b' := Apply(b, op).state;
            match op
            case UpdateHeader(_, _) => 0 <= Slack(b') <==> b.items != [] || b'.income + b'.contribution == 0
            case AddLine(_) => 0 < Slack(b')
            case UpdateLine(id, estimate) =>
              0 <= Slack(b') <==> AmountOf(ItemWith(b, id)) - estimate.amount <= Slack(b)
            case DeleteLine(id) => 0 <= Slack(b') <==> AmountOf(ItemWith(b, id)) <= Slack(b)
  {
    match op
    case UpdateHeader(_, _) => if b.items != [] { TotalIsPositive(b.items); }
    case AddLine(item) => SumOfAppend(b.items, item, AmountOf);
    case UpdateLine(id, estimate) =>
      SumOfUpdate(b.items, Ledger.Find(b.items, ItemId, id).value, LineItem(id, estimate), AmountOf);
    case DeleteLine(id) => SumOfRemoveAt(b.items, Ledger.Find(b.items, ItemId, id).value, AmountOf);
  }

  /** The item an accepted edit refers to. */
  function ItemWith(b: Budget, id: nat): LineItem {
    var at := Ledger.Find(b.items, ItemId, id);
    if at.Some? then b.items[at.value] else LineItem(id, Estimate("", Ledger.Other, 0, None))
  }

  /** A budget that asks for nothing and lists nothing may be raised to ask for a contribution
      towards no expenditure at all. */
  lemma HeaderCanUnbalance()
    ensures var b := Budget(0, 0, 0, [], FinancePending);
            && Create(0, 0, []) == Accepted(b) && Sound(b) && Slack(b) == 0
            && Update(b, None, Some(100)).Accepted? && Slack(Update(b, None, Some(100)).state) == -100
            && Create(0, 100, []).Accepted? && Slack(Create(0, 100, []).state) == -100
  {
  }

  /** Deleting its only item leaves a balanced budget asking for more than it spends. */
  lemma DeletingCanUnbalance()
    ensures var item := LineItem(1, Estimate("stage", Ledger.Venue, 100, None));
            var b := Budget(0, 100, 100, [item], FinancePending);
            && Sound(b) && Slack(b) == 0
            && DeleteItem(b, 1) == Accepted(Budget(0, 100, 0, [], FinancePending))
  {
    var item := LineItem(1, Estimate("stage", Ledger.Venue, 100, None));
    assert Sum([item], AmountOf) == 100;
    assert RemoveAt([item], 0) == [];
  }
}
