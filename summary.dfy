/**
 * The budget summary shown at the top of the page: the budget, the running
 * total, the remaining balance and the colour the balance is drawn in.
 */
module Summary {
  import opened Expenses

  /** The colour of the remaining balance: danger, warning or the accent (ok) colour. */
  datatype Status = Danger | Warning | Ok

  datatype BudgetView = BudgetView(budget: real, total: real, remaining: real, status: Status)

  /** Three-way classification of the remaining balance against a tenth of the budget. */
  function Classify(budget: real, remaining: real): (s: Status)
    ensures s == Danger <==> remaining < 0.0
    ensures s == Warning <==> 0.0 <= remaining < budget * 0.1
    ensures s == Ok <==> 0.0 <= remaining && budget * 0.1 <= remaining
  {
    if remaining < 0.0 then Danger
    else if remaining < budget * 0.1 then Warning
    else Ok
  }

  /** How alarming a status is: ok < warning < danger. */
  function Severity(s: Status): nat
  {
    match s
    case Ok => 0
    case Warning => 1
    case Danger => 2
  }

  /** The summary of `updateUI`: remaining is the budget minus everything spent. */
  function BudgetSummary(budget: real, es: seq<Expense>): (v: BudgetView)
    ensures v.budget == budget && v.total == Total(es)
    ensures v.remaining + v.total == budget
    ensures v.status == Classify(budget, v.remaining)
  {
    var total := Total(es);
    var remaining := budget - total;
    BudgetView(budget, total, remaining, Classify(budget, remaining))
  }

  /** A smaller remaining balance is never classified as less alarming. */
  lemma {:induction false} ClassifyMonotone(budget: real, r1: real, r2: real)
    requires r1 <= r2
    ensures Severity(Classify(budget, r2)) <= Severity(Classify(budget, r1))
  {
  }

  /** With a non-negative budget, the ok status means at most 90% of it is spent. */
  lemma {:induction false} OkMeansNinetyPercentLeft(budget: real, es: seq<Expense>)
    requires budget >= 0.0
    requires BudgetSummary(budget, es).status == Ok
    ensures Total(es) <= budget * 0.9
  {
  }

  /** Adding a positive expense never makes the status less alarming. */
  lemma {:induction false} AddNeverImproves(budget: real, es: seq<Expense>, e: Expense)
    requires e.amount > 0.0
    ensures BudgetSummary(budget, es + [e]).remaining == BudgetSummary(budget, es).remaining - e.amount
    ensures Severity(BudgetSummary(budget, es + [e]).status) >= Severity(BudgetSummary(budget, es).status)
  {
    TotalAppend(es, e);
    ClassifyMonotone(budget, budget - Total(es + [e]), budget - Total(es));
  }

  /** Deleting records of positive amounts restores exactly their sum to the
      balance, and never makes the status more alarming. */
  lemma {:induction false} DeleteNeverWorsens(budget: real, es: seq<Expense>, id: int)
    requires AllPositive(es)
    ensures BudgetSummary(budget, WithoutId(es, id)).remaining == BudgetSummary(budget, es).remaining + Total(WithId(es, id))
    ensures Severity(BudgetSummary(budget, WithoutId(es, id)).status) <= Severity(BudgetSummary(budget, es).status)
  {
    var gone := WithId(es, id);
    DeleteTotal(es, id);
    WithIdMembers(es, id);
    assert AllPositive(gone) by {
      forall i | 0 <= i < |gone| ensures gone[i].amount > 0.0 {
        assert gone[i] in gone;
        assert gone[i] in es;
      }
    }
    TotalOfPositive(gone);
    ClassifyMonotone(budget, budget - Total(es), budget - Total(WithoutId(es, id)));
  }
}
