/**
 * The mutable state of the `SmartPocket` object (`data.expenses`,
 * `data.monthlyBudget`, `data.ageGroup`) and the four operations that change
 * it. Text fields arrive already read: the amount and budget as what
 * `parseFloat` returned, the note as the raw field value; the id and the date
 * that the application takes from the clock are parameters.
 */
module Pocket {
  import opened Expenses

  /** What `addExpense` did: stored a record, refused the amount (the toast path),
      or threw while building the default note from an empty category. */
  datatype AddOutcome = Added | InvalidAmount | Threw

  /** What `addExpense` does with its inputs, as a function of them. */
  function AddOutcomeOf(category: string, amount: ParsedNumber, note: string): AddOutcome
  {
    if !IsPositive(amount) then InvalidAmount
    else if NoteThrows(category, note) then Threw
    else Added
  }

  class SmartPocket {
    var ageGroup: string
    var monthlyBudget: real
    var expenses: seq<Expense>

    /** What validation keeps true: every stored amount is positive and the budget
        is zero (unset) or positive. */
    predicate Valid()
      reads this
    {
      monthlyBudget >= 0.0 && AllPositive(expenses)
    }

    /** The initial `data`: no persona, no budget, no expenses. */
    constructor ()
      ensures Valid()
      ensures ageGroup == "" && monthlyBudget == 0.0 && expenses == []
    {
      ageGroup := "";
      monthlyBudget := 0.0;
      expenses := [];
    }

    /** `selectAge`: records the persona; nothing is validated. */
    method SelectAge(group: string)
      requires Valid()
      modifies this
      ensures Valid()
      ensures ageGroup == group
      ensures monthlyBudget == old(monthlyBudget) && expenses == old(expenses)
    {
      ageGroup := group;
    }

    /** `setBudget`: NaN, zero and negative inputs are refused and change nothing. */
    method SetBudget(input: ParsedNumber) returns (accepted: bool)
      requires Valid()
      modifies this
      ensures Valid()
      ensures accepted <==> IsPositive(input)
      ensures monthlyBudget == if accepted then input.value else old(monthlyBudget)
      ensures expenses == old(expenses) && ageGroup == old(ageGroup)
    {
      if !IsPositive(input) {
        return false;
      }
      monthlyBudget := input.value;
      accepted := true;
    }

    /**
     * `addExpense`: refuses NaN, zero and negative amounts; otherwise appends one
     * record whose note is the trimmed note or, when that is empty, the default
     * note of the category. With an empty category and an empty note the default
     * note cannot be built (`category[0]` is undefined) and nothing is stored.
     */
    method AddExpense(category: string, amount: ParsedNumber, note: string, id: int, date: string)
      returns (outcome: AddOutcome)
      requires Valid()
      modifies this
      ensures Valid()
      ensures outcome == AddOutcomeOf(category, amount, note)
      ensures outcome == Added ==>
        expenses == old(expenses) + [Expense(id, category, amount.value, StoredNote(category, note), date)]
      ensures outcome != Added ==> expenses == old(expenses)
      ensures monthlyBudget == old(monthlyBudget) && ageGroup == old(ageGroup)
    {
      var trimmed := Trim(note);
      if !IsPositive(amount) {
        return InvalidAmount;
      }
      if trimmed == [] && category == [] {
        return Threw;
      }
      var stored := if trimmed != [] then trimmed else DefaultNote(category);
      var e := Expense(id, category, amount.value, stored, date);
      ghost var before := expenses;
      expenses := expenses + [e];
      assert forall i :: 0 <= i < |before| ==> expenses[i] == before[i];
      outcome := Added;
    }

    /** `deleteExpense`: keeps exactly the records whose id differs, in order. */
    method DeleteExpense(id: int)
      requires Valid()
      modifies this
      ensures Valid()
      ensures expenses == WithoutId(old(expenses), id)
      ensures monthlyBudget == old(monthlyBudget) && ageGroup == old(ageGroup)
    {
      ghost var before := expenses;
      expenses := WithoutId(expenses, id);
      WithoutIdMembers(before, id);
      forall i | 0 <= i < |expenses| ensures expenses[i].amount > 0.0 {
        assert expenses[i] in before;
      }
    }
  }

  /** Deleting the id of a record just added, when no earlier record had it,
      gives back the book as it was. */
  lemma {:induction false} DeleteUndoesAdd(es: seq<Expense>, e: Expense)
    requires forall i :: 0 <= i < |es| ==> es[i].id != e.id
    ensures WithoutId(es + [e], e.id) == es
  {
    WithoutIdAppend(es, [e], e.id);
    DeleteAbsent(es, e.id);
    assert [e][..0] == [];
    assert WithoutId([e], e.id) == WithoutId([], e.id);
  }

  /** A valid add grows the book by one record and the total by the amount. */
  lemma {:induction false} AddGrowsTotal(es: seq<Expense>, category: string, amount: ParsedNumber,
                                         note: string, id: int, date: string)
    requires AddOutcomeOf(category, amount, note) == Added
    ensures var e := Expense(id, category, amount.value, StoredNote(category, note), date);
      Total(es + [e]) == Total(es) + amount.value && Total(es + [e]) > Total(es)
  {
    TotalAppend(es, Expense(id, category, amount.value, StoredNote(category, note), date));
  }
}
