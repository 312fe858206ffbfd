/** The budgets page: each budget card's percentage, over-budget flag,
    progress-bar value, overrun and category label, and the page's load. */
module BudgetsPage {
  import opened Wrappers
  import opened Domain
  import JsNumber

  /** `(budget.spent / budget.amount) * 100`. */
  function Percentage(b: Budget): JsNumber.Num
  {
    JsNumber.Percentage(b.spent, b.amount)
  }

  /** `percentage > 100`. */
  predicate IsOverBudget(b: Budget)
  {
    JsNumber.Greater(Percentage(b), 100.0)
  }

  /** Over budget means spending above a positive amount, any spending at
      all against a zero amount (Infinity), or spending below a negative
      amount; at exactly the amount the budget is not over. */
  lemma OverBudgetIff(b: Budget)
    ensures IsOverBudget(b) <==>
      (b.amount > 0.0 && b.spent > b.amount) || (b.amount == 0.0 && b.spent > 0.0) || (b.amount < 0.0 && b.spent < b.amount)
  {
    JsNumber.PercentageAbove(b.spent, b.amount);
  }

  /** `Math.min(percentage, 100)`: the bar never goes past 100; an infinite
      percentage is drawn full; 0 / 0 stays NaN. */
  function ProgressValue(b: Budget): (v: JsNumber.Num)
    ensures v.Finite? ==> v.r <= 100.0
    ensures !v.PosInf?
    ensures Percentage(b).PosInf? ==> v == JsNumber.Finite(100.0)
    ensures v.NaN? <==> b.spent == 0.0 && b.amount == 0.0
  {
    JsNumber.Min(Percentage(b), 100.0)
  }

  /** Below the cap the bar shows the percentage itself. */
  lemma ProgressBelowCap(b: Budget)
    requires b.amount > 0.0 && b.spent <= b.amount
    ensures ProgressValue(b).Finite? && ProgressValue(b).r * b.amount == b.spent * 100.0
  {
    OverBudgetIff(b);
    var p := Percentage(b);
    assert p.Finite?;
    assert !JsNumber.Greater(p, 100.0);
  }

  /** The "Budget dépassé de …" line: shown only when over budget, with
      `spent - amount`. */
  function Overrun(b: Budget): (r: Option<real>)
    ensures r.Some? <==> IsOverBudget(b)
  {
    if IsOverBudget(b) then Some(b.spent - b.amount) else None
  }

  /** For a non-negative amount a shown overrun is positive; for a negative
      amount it is negative, since the flag then means spending below it. */
  lemma OverrunSign(b: Budget)
    ensures Overrun(b).Some? && b.amount >= 0.0 ==> Overrun(b).value > 0.0
    ensures Overrun(b).Some? && b.amount < 0.0 ==> Overrun(b).value < 0.0
  {
    OverBudgetIff(b);
  }

  /** `budget.category?.name || 'Toutes catégories'`. */
  function CategoryLabel(b: Budget): (text: string)
    ensures b.category.Some? && b.category.value.name != "" ==> text == b.category.value.name
    ensures b.category.None? || b.category.value.name == "" ==> text == "Toutes catégories"
  {
    if b.category.Some? && b.category.value.name != "" then b.category.value.name else "Toutes catégories"
  }

  /** The label is never empty: a missing or unnamed category shows the
      catch-all text. */
  lemma CategoryLabelNonEmpty(b: Budget)
    ensures CategoryLabel(b) != ""
  {
  }

  class BudgetsView {
    var budgets: seq<Budget>
    var isLoading: bool

    constructor ()
      ensures budgets == [] && isLoading
    {
      budgets := [];
      isLoading := true;
    }

    /** The load effect: the list on success, the list as it was (empty on
        first load) on failure, and loading stops either way. */
    method FetchBudgets(reply: Result<seq<Budget>, string>)
      modifies this
      ensures !isLoading
      ensures reply.Success? ==> budgets == reply.value
      ensures reply.Failure? ==> budgets == old(budgets)
    {
      if reply.Success? {
        budgets := reply.value;
      }
      isLoading := false;
    }
  }
}
