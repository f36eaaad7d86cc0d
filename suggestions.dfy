/**
 * `generateSavingsSuggestions`: messages derived from the share of three
 * categories in the total spend and from the remaining budget.
 */
module Suggestions {
  import opened Expenses
  import opened Aggregation
  import opened Summary

  /** The messages the generator can emit. */
  datatype Advice =
    | StartTracking | FoodHeavy | EntertainmentHeavy | ShoppingHeavy
    | Balanced | OverBudget | NearBudget

  /** The text shown for each message. */
  function Text(a: Advice): string
  {
    match a
    case StartTracking => "Start tracking your expenses to get personalized savings suggestions!"
    case FoodHeavy => "You're spending a lot on food. Plan meals & cook more at home."
    case EntertainmentHeavy => "Entertainment is high. Try free/low-cost options."
    case ShoppingHeavy => "Shopping is heavy. Use a 24\U{2011}hour wait before non-essentials."
    case Balanced => "Spending looks balanced! Consider investing 10\U{2013}15% this month."
    case OverBudget => "You've exceeded your monthly budget. Review & trim a category."
    case NearBudget => "Close to budget limit. Be mindful for the rest of the month."
  }

  const FoodShare: real := 0.3
  const EntertainmentShare: real := 0.2
  const ShoppingShare: real := 0.25

  /** `byCat[c] && byCat[c] > total * share`: the category is present, its total is
      non-zero (zero is falsy) and above the given share of all spending. */
  predicate Heavy(es: seq<Expense>, c: string, share: real)
  {
    CategoryTotal(es, c) != 0.0 && CategoryTotal(es, c) > Total(es) * share
  }

  /** The spending-pattern messages for the three tests, in the order the source makes them. */
  function PatternOf(food: bool, entertainment: bool, shopping: bool): seq<Advice>
  {
    (if food then [FoodHeavy] else [])
    + (if entertainment then [EntertainmentHeavy] else [])
    + (if shopping then [ShoppingHeavy] else [])
  }

  /** The spending-pattern messages of a book. */
  function PatternAdvice(es: seq<Expense>): seq<Advice>
  {
    PatternOf(Heavy(es, "food", FoodShare), Heavy(es, "entertainment", EntertainmentShare),
              Heavy(es, "shopping", ShoppingShare))
  }

  /** The budget message: none unless a budget is set, then over, near or none. */
  function BudgetAdvice(budget: real, total: real): seq<Advice>
  {
    if budget > 0.0 then
      var remaining := budget - total;
      if remaining < 0.0 then [OverBudget]
      else if remaining < budget * 0.1 then [NearBudget]
      else []
    else []
  }

  /** The pattern messages, or the balanced message when there are none, then the budget message. */
  function Assemble(pattern: seq<Advice>, budgetPart: seq<Advice>): seq<Advice>
  {
    (if pattern == [] then [Balanced] else pattern) + budgetPart
  }

  /** Reference definition of the suggestion list. */
  function SavingsSuggestions(es: seq<Expense>, budget: real): (r: seq<Advice>)
    ensures |es| == 0 ==> r == [StartTracking]
    ensures 1 <= |r| <= 4
  {
    if |es| == 0 then [StartTracking]
    else Assemble(PatternAdvice(es), BudgetAdvice(budget, Total(es)))
  }

  /** The texts shown for a list of messages, in order. */
  function Shown(advice: seq<Advice>): (r: seq<string>)
    ensures |r| == |advice|
    ensures forall i :: 0 <= i < |advice| ==> r[i] == Text(advice[i])
  {
    seq(|advice|, i requires 0 <= i < |advice| => Text(advice[i]))
  }

  /**
   * The generator as the source runs it: aggregate by category, sum the
   * values of the aggregate, then push messages one by one. `texts` is what
   * the page shows, one text per message in push order.
   */
  method GenerateSavingsSuggestions(es: seq<Expense>, budget: real)
    returns (suggestions: seq<Advice>, texts: seq<string>)
    ensures suggestions == SavingsSuggestions(es, budget)
    ensures texts == Shown(SavingsSuggestions(es, budget))
    ensures |es| == 0 ==> texts == [Text(StartTracking)]
  {
    if |es| == 0 {
      suggestions := [StartTracking];
      return suggestions, Shown(suggestions);
    }
    var cats, byCat := TotalsByCategory(es);
    var total := Sum(Values(cats, byCat));
    ValuesAddUp(es, byCat);
    CategoryPresent(es, byCat, "food");
    CategoryPresent(es, byCat, "entertainment");
    CategoryPresent(es, byCat, "shopping");

    var food := "food" in byCat && byCat["food"] != 0.0 && byCat["food"] > total * FoodShare;
    var entertainment := "entertainment" in byCat && byCat["entertainment"] != 0.0
      && byCat["entertainment"] > total * EntertainmentShare;
    var shopping := "shopping" in byCat && byCat["shopping"] != 0.0 && byCat["shopping"] > total * ShoppingShare;
    assert food == Heavy(es, "food", FoodShare);
    assert entertainment == Heavy(es, "entertainment", EntertainmentShare);
    assert shopping == Heavy(es, "shopping", ShoppingShare);

    suggestions := PushPatternAdvice(food, entertainment, shopping);
    suggestions := PushBudgetAdvice(suggestions, budget, total);
    texts := Shown(suggestions);
  }

  /** The three pattern pushes, given the outcomes of their tests. */
  method PushPatternAdvice(food: bool, entertainment: bool, shopping: bool) returns (suggestions: seq<Advice>)
    ensures suggestions == PatternOf(food, entertainment, shopping)
  {
    suggestions := [];
    if food {
      suggestions := suggestions + [FoodHeavy];
    }
    if entertainment {
      suggestions := suggestions + [EntertainmentHeavy];
    }
    if shopping {
      suggestions := suggestions + [ShoppingHeavy];
    }
  }

  /** The balanced stand-in for an empty pattern part, then the budget push. */
  method PushBudgetAdvice(pattern: seq<Advice>, budget: real, total: real) returns (suggestions: seq<Advice>)
    ensures suggestions == Assemble(pattern, BudgetAdvice(budget, total))
  {
    suggestions := pattern;
    if |suggestions| == 0 {
      suggestions := suggestions + [Balanced];
    }
    if budget > 0.0 {
      var remaining := budget - total;
      if remaining < 0.0 {
        suggestions := suggestions + [OverBudget];
      } else if remaining < budget * 0.1 {
        suggestions := suggestions + [NearBudget];
      }
    }
  }

  /** Looking a category up in the loop's map agrees with its total: absent means zero. */
  lemma {:induction false} CategoryPresent(es: seq<Expense>, byCat: map<string, real>, c: string)
    requires forall d :: d in byCat <==> HasCategory(es, d)
    requires forall d :: d in byCat ==> byCat[d] == CategoryTotal(es, d)
    ensures (c in byCat && byCat[c] != 0.0) <==> CategoryTotal(es, c) != 0.0
    ensures c in byCat ==> byCat[c] == CategoryTotal(es, c)
  {
    if c !in byCat {
      CategoryTotalAbsent(es, c);
    }
  }

  /** Each pattern message is present exactly when its test holds; no other message is. */
  lemma {:induction false} PatternOfContents(food: bool, entertainment: bool, shopping: bool)
    ensures FoodHeavy in PatternOf(food, entertainment, shopping) <==> food
    ensures EntertainmentHeavy in PatternOf(food, entertainment, shopping) <==> entertainment
    ensures ShoppingHeavy in PatternOf(food, entertainment, shopping) <==> shopping
    ensures PatternOf(food, entertainment, shopping) == [] <==> !food && !entertainment && !shopping
    ensures forall a :: a in PatternOf(food, entertainment, shopping) ==>
      a == FoodHeavy || a == EntertainmentHeavy || a == ShoppingHeavy
  {
  }

  /** At most one budget message; it needs a positive budget and matches the balance's colour. */
  lemma {:induction false} BudgetAdviceContents(budget: real, total: real)
    ensures !(OverBudget in BudgetAdvice(budget, total) && NearBudget in BudgetAdvice(budget, total))
    ensures forall a :: a in BudgetAdvice(budget, total) ==> budget > 0.0 && (a == OverBudget || a == NearBudget)
    ensures budget > 0.0 ==>
      && (OverBudget in BudgetAdvice(budget, total) <==> Classify(budget, budget - total) == Danger)
      && (NearBudget in BudgetAdvice(budget, total) <==> Classify(budget, budget - total) == Warning)
  {
  }

  /** A message of the assembled list comes from the pattern part, is its balanced stand-in,
      or comes from the budget part. */
  lemma {:induction false} AssembleContents(pattern: seq<Advice>, budgetPart: seq<Advice>, a: Advice)
    ensures a in Assemble(pattern, budgetPart) <==>
      a in pattern || (pattern == [] && a == Balanced) || a in budgetPart
  {
  }

  /** Each pattern message appears exactly when its category is heavy. */
  lemma {:induction false} PatternMessagesIff(es: seq<Expense>, budget: real)
    requires |es| > 0
    ensures FoodHeavy in SavingsSuggestions(es, budget) <==> Heavy(es, "food", FoodShare)
    ensures EntertainmentHeavy in SavingsSuggestions(es, budget) <==> Heavy(es, "entertainment", EntertainmentShare)
    ensures ShoppingHeavy in SavingsSuggestions(es, budget) <==> Heavy(es, "shopping", ShoppingShare)
  {
    var f, e, h := Heavy(es, "food", FoodShare), Heavy(es, "entertainment", EntertainmentShare),
                   Heavy(es, "shopping", ShoppingShare);
    var p, b := PatternOf(f, e, h), BudgetAdvice(budget, Total(es));
    PatternOfContents(f, e, h);
    BudgetAdviceContents(budget, Total(es));
    AssembleContents(p, b, FoodHeavy);
    AssembleContents(p, b, EntertainmentHeavy);
    AssembleContents(p, b, ShoppingHeavy);
  }

  /** The "balanced" message appears exactly when none of the three shares is exceeded. */
  lemma {:induction false} BalancedIff(es: seq<Expense>, budget: real)
    requires |es| > 0
    ensures Balanced in SavingsSuggestions(es, budget) <==>
      !Heavy(es, "food", FoodShare) && !Heavy(es, "entertainment", EntertainmentShare)
      && !Heavy(es, "shopping", ShoppingShare)
  {
    var f, e, h := Heavy(es, "food", FoodShare), Heavy(es, "entertainment", EntertainmentShare),
                   Heavy(es, "shopping", ShoppingShare);
    var p, b := PatternOf(f, e, h), BudgetAdvice(budget, Total(es));
    PatternOfContents(f, e, h);
    BudgetAdviceContents(budget, Total(es));
    AssembleContents(p, b, Balanced);
  }

  /** At most one budget message, and only when a positive budget is set. */
  lemma {:induction false} AtMostOneBudgetMessage(es: seq<Expense>, budget: real)
    ensures !(OverBudget in SavingsSuggestions(es, budget) && NearBudget in SavingsSuggestions(es, budget))
    ensures OverBudget in SavingsSuggestions(es, budget) || NearBudget in SavingsSuggestions(es, budget)
      ==> budget > 0.0 && |es| > 0
  {
    if |es| > 0 {
      var f, e, h := Heavy(es, "food", FoodShare), Heavy(es, "entertainment", EntertainmentShare),
                     Heavy(es, "shopping", ShoppingShare);
      var p, b := PatternOf(f, e, h), BudgetAdvice(budget, Total(es));
      PatternOfContents(f, e, h);
      BudgetAdviceContents(budget, Total(es));
      AssembleContents(p, b, OverBudget);
      AssembleContents(p, b, NearBudget);
    }
  }

  /** The budget message agrees with the colour of the summary's remaining balance. */
  lemma {:induction false} BudgetMessageMatchesSummary(es: seq<Expense>, budget: real)
    requires budget > 0.0
    ensures OverBudget in SavingsSuggestions(es, budget) <==> BudgetSummary(budget, es).status == Danger
    ensures NearBudget in SavingsSuggestions(es, budget) <==> BudgetSummary(budget, es).status == Warning
  {
    if |es| > 0 {
      var f, e, h := Heavy(es, "food", FoodShare), Heavy(es, "entertainment", EntertainmentShare),
                     Heavy(es, "shopping", ShoppingShare);
      var p, b := PatternOf(f, e, h), BudgetAdvice(budget, Total(es));
      PatternOfContents(f, e, h);
      BudgetAdviceContents(budget, Total(es));
      AssembleContents(p, b, OverBudget);
      AssembleContents(p, b, NearBudget);
    } else {
      assert Total(es) == 0.0;
    }
  }

  /** With positive amounts the truthiness test is redundant: a category is
      heavy exactly when it occurs and its total exceeds the share. */
  lemma {:induction false} HeavyOfPositive(es: seq<Expense>, c: string, share: real)
    requires AllPositive(es)
    ensures Heavy(es, c, share) <==> HasCategory(es, c) && CategoryTotal(es, c) > Total(es) * share
  {
    if HasCategory(es, c) {
      CategoryTotalPositive(es, c);
    } else {
      CategoryTotalAbsent(es, c);
    }
  }
}
