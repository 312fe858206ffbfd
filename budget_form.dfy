/** The new-budget dialog: its schema, its defaults, the expense-only
    category picker, the request it builds and how a submit settles. */
module BudgetForm {
  import opened Wrappers
  import opened Domain
  import Text
  import QueryKeys
  import opened Forms

  datatype Values = Values(
    name: string, amount: string, period: string,
    startDate: string, endDate: string, categoryId: string)

  function PeriodName(p: BudgetPeriod): string
  {
    match p
    case Daily => "DAILY"
    case Weekly => "WEEKLY"
    case Monthly => "MONTHLY"
    case Yearly => "YEARLY"
  }

  /** `z.enum(['DAILY', 'WEEKLY', 'MONTHLY', 'YEARLY'])`. */
  function PeriodOf(s: string): Option<BudgetPeriod>
  {
    if s == "DAILY" then Some(Daily)
    else if s == "WEEKLY" then Some(Weekly)
    else if s == "MONTHLY" then Some(Monthly)
    else if s == "YEARLY" then Some(Yearly)
    else None
  }

  /** A name is accepted exactly when it names a period, and reads as it. */
  lemma PeriodNames(s: string, p: BudgetPeriod)
    ensures PeriodOf(s) == Some(p) <==> s == PeriodName(p)
  {
  }

  /** `budgetSchema`: a name of at least three characters, an amount, a
      known period, both dates and a category. */
  predicate Valid(v: Values)
  {
    |v.name| >= 3 && |v.amount| >= 1 && PeriodOf(v.period).Some?
    && |v.startDate| >= 1 && |v.endDate| >= 1 && |v.categoryId| >= 1
  }

  /** `defaultValues`, with `today` the ISO date of the current day. */
  function Defaults(today: string): Values
  {
    Values("", "", "MONTHLY", today, "", "")
  }

  /** A fresh form is a monthly budget starting today; it cannot be submitted
      until a name, an amount, an end date and a category are given, and in
      particular not without an end date. */
  lemma DefaultsNeedEndDate(today: string, name: string, amount: string, endDate: string, category: string)
    ensures PeriodOf(Defaults(today).period) == Some(Monthly)
    ensures !Valid(Defaults(today))
    ensures !Valid(Defaults(today).(name := name, amount := amount, categoryId := category))
    ensures |today| >= 1 ==>
      (Valid(Defaults(today).(name := name, amount := amount, endDate := endDate, categoryId := category))
       <==> |name| >= 3 && |amount| >= 1 && |endDate| >= 1 && |category| >= 1)
  {
  }

  /** The picker's categories: expense ones only. */
  function Offered(categories: seq<Category>): seq<Category>
  {
    CategoriesOfType(categories, Expense)
  }

  /** Only expense categories are offered, and all of them are. */
  lemma OfferedIff(categories: seq<Category>)
    ensures forall c :: c in Offered(categories) <==> c in categories && c.categoryType == Expense
  {
    CategoriesOfTypeMembers(categories, Expense);
  }

  /** `CreateBudgetRequest`; `None` stands for NaN. */
  datatype Request = Request(
    name: string, amount: Option<real>, period: BudgetPeriod,
    startDate: string, endDate: string, categoryId: Option<int>)

  function RequestOf(v: Values): (r: Request)
    requires Valid(v)
    ensures r.name == v.name && r.period == PeriodOf(v.period).value
    ensures r.startDate == v.startDate && r.endDate == v.endDate
  {
    Request(v.name, Text.ParseFloatPrefix(v.amount), PeriodOf(v.period).value,
            v.startDate, v.endDate, Text.ParseIntPrefix(v.categoryId))
  }

  /** The picked category's id and a whole-number amount reach the request
      unchanged. */
  lemma PickedCategoryReachesTheRequest(v: Values, amount: int, category: int)
    requires Valid(v)
    requires v.amount == Text.IntToString(amount) && v.categoryId == Text.IntToString(category)
    ensures RequestOf(v).amount == Some(amount as real) && RequestOf(v).categoryId == Some(category)
  {
    Text.ParseFloatOfInt(amount);
    Text.ParseIntRoundTrip(category);
  }

  const SUCCESS_TEXT := "Budget créé avec succès"
  const FAILURE_TEXT := "Erreur lors de la création du budget"

  datatype Submission = Submission(request: Request, outcome: Outcome, invalidated: seq<QueryKeys.QueryKey>)

  /** `form.handleSubmit(onSubmit)` with `reply` how `useCreateBudget`'s
      call ended. */
  function Submit(v: Values, reply: Result<(), string>): (s: Option<Submission>)
    ensures s.Some? <==> Valid(v)
  {
    if !Valid(v) then None
    else Some(Submission(RequestOf(v), Settle(reply, SUCCESS_TEXT, FAILURE_TEXT),
                         QueryKeys.OnSettled(QueryKeys.CreateBudget, reply.Success?)))
  }

  /** Success closes and resets the dialog and refreshes the budget list and
      the dashboard summary; failure keeps the dialog, refreshes nothing and
      shows the error's message or the form's own text. */
  lemma SubmitSettles(v: Values, reply: Result<(), string>)
    requires Valid(v)
    ensures var s := Submit(v, reply).value;
      reply.Success? ==> (s.outcome.closeDialog && s.outcome.resetForm &&
        s.outcome.toast == SuccessToast(SUCCESS_TEXT) &&
        QueryKeys.Budgets() in s.invalidated && QueryKeys.DashboardSummary(None) in s.invalidated)
    ensures var s := Submit(v, reply).value;
      reply.Failure? ==> (!s.outcome.closeDialog && !s.outcome.resetForm && s.invalidated == [] &&
        s.outcome.toast == ErrorToast(if reply.error != "" then reply.error else FAILURE_TEXT))
  {
  }
}
