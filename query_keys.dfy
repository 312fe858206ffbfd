/** The query-cache keys of the data hooks and, for each mutation hook, the
    keys its success handler invalidates. */
module QueryKeys {
  import opened Wrappers
  import opened Domain

  /** One element of a key tuple: a string, a number, or an argument that
      was not given. */
  datatype KeyPart = S(s: string) | N(n: int) | Undefined

  type QueryKey = seq<KeyPart>

  function OptString(v: Option<string>): KeyPart
  {
    if v.Some? then S(v.value) else Undefined
  }

  function Accounts(): QueryKey { [S("accounts")] }
  function Account(id: int): QueryKey { [S("accounts"), N(id)] }
  function Transactions(): QueryKey { [S("transactions")] }
  function Transaction(id: int): QueryKey { [S("transactions"), N(id)] }
  function Budgets(): QueryKey { [S("budgets")] }
  function Budget(id: int): QueryKey { [S("budgets"), N(id)] }
  function Categories(): QueryKey { [S("categories")] }
  function Category(id: int): QueryKey { [S("categories"), N(id)] }
  function Goals(): QueryKey { [S("goals")] }
  function Goal(id: int): QueryKey { [S("goals"), N(id)] }
  function GoalProgress(id: int): QueryKey { [S("goals"), N(id), S("progress")] }
  function ActiveGoals(): QueryKey { [S("goals"), S("active")] }
  function CompletedGoals(): QueryKey { [S("goals"), S("completed")] }

  function DashboardSummary(period: Option<string>): QueryKey
  {
    [S("dashboard"), S("summary"), OptString(period)]
  }

  function CategoryStatistics(period: Option<string>, txType: Option<CategoryType>): QueryKey
  {
    [S("dashboard"), S("categoryStats"), OptString(period),
     if txType.Some? then S(if txType.value == Income then "INCOME" else "EXPENSE") else Undefined]
  }

  function MonthlyTrends(months: Option<int>): QueryKey
  {
    [S("dashboard"), S("monthlyTrends"), if months.Some? then N(months.value) else Undefined]
  }

  /** Every single-record key is its list key followed by the id; a goal's
      progress key follows the goal's key; the active and completed goal
      keys sit under the goals key. */
  lemma KeyHierarchy(id: int)
    ensures Account(id) == Accounts() + [N(id)]
    ensures Transaction(id) == Transactions() + [N(id)]
    ensures Budget(id) == Budgets() + [N(id)]
    ensures Category(id) == Categories() + [N(id)]
    ensures Goal(id) == Goals() + [N(id)]
    ensures GoalProgress(id) == Goal(id) + [S("progress")]
    ensures ActiveGoals()[..1] == Goals() && CompletedGoals()[..1] == Goals()
    ensures ActiveGoals() != CompletedGoals()
  {
  }

  /** The mutation hooks, with the id the update hooks receive. */
  datatype Mutation =
    | CreateAccount | UpdateAccount(accountId: int) | DeleteAccount
    | CreateTransaction | UpdateTransaction(transactionId: int) | DeleteTransaction
    | CreateBudget | UpdateBudget(budgetId: int) | DeleteBudget
    | CreateCategory | UpdateCategory(categoryId: int) | DeleteCategory
    | CreateGoal | UpdateGoal(goalId: int) | DeleteGoal
    | UpdateGoalProgress(progressGoalId: int) | CompleteGoal | CancelGoal

  /** The six keys every transaction mutation invalidates. */
  function TransactionFallout(): seq<QueryKey>
  {
    [Transactions(), Accounts(), Budgets(), DashboardSummary(None), CategoryStatistics(None, None), MonthlyTrends(None)]
  }

  /** The `onSuccess` invalidation list of each mutation, in call order. */
  function Invalidates(m: Mutation): seq<QueryKey>
  {
    match m
    case CreateAccount => [Accounts(), DashboardSummary(None)]
    case UpdateAccount(id) => [Accounts(), Account(id), DashboardSummary(None)]
    case DeleteAccount => [Accounts(), Transactions(), DashboardSummary(None)]
    case CreateTransaction => TransactionFallout()
    case UpdateTransaction(id) => TransactionFallout()[..1] + [Transaction(id)] + TransactionFallout()[1..]
    case DeleteTransaction => TransactionFallout()
    case CreateBudget => [Budgets(), DashboardSummary(None)]
    case UpdateBudget(id) => [Budgets(), Budget(id), DashboardSummary(None)]
    case DeleteBudget => [Budgets(), DashboardSummary(None)]
    case CreateCategory => [Categories()]
    case UpdateCategory(id) => [Categories(), Category(id)]
    case DeleteCategory => [Categories()]
    case CreateGoal => [Goals(), ActiveGoals()]
    case UpdateGoal(id) => [Goals(), Goal(id), GoalProgress(id)]
    case DeleteGoal => [Goals(), ActiveGoals(), CompletedGoals()]
    case UpdateGoalProgress(id) => [Goals(), Goal(id), GoalProgress(id)]
    case CompleteGoal => [Goals(), ActiveGoals(), CompletedGoals()]
    case CancelGoal => [Goals(), ActiveGoals()]
  }

  /** What a settled mutation invalidates: its list after success, nothing
      after failure (the lists live only in `onSuccess`). */
  function OnSettled(m: Mutation, succeeded: bool): (keys: seq<QueryKey>)
    ensures !succeeded ==> keys == []
    ensures succeeded ==> forall k :: k in keys <==> k in Invalidates(m)
  {
    if succeeded then Invalidates(m) else []
  }

  predicate IsTransactionMutation(m: Mutation)
  {
    m.CreateTransaction? || m.UpdateTransaction? || m.DeleteTransaction?
  }

  predicate IsCategoryMutation(m: Mutation)
  {
    m.CreateCategory? || m.UpdateCategory? || m.DeleteCategory?
  }

  /** Creating, updating or deleting a transaction invalidates the
      transaction list, accounts, budgets and the three dashboard keys;
      an update also invalidates the record's own key. */
  lemma TransactionMutationsRefreshDerivedData(m: Mutation)
    requires IsTransactionMutation(m)
    ensures forall k :: k in TransactionFallout() ==> k in Invalidates(m)
    ensures m.UpdateTransaction? ==> Transaction(m.transactionId) in Invalidates(m)
  {
  }

  /** Category mutations invalidate category keys only: nothing they list
      starts with anything but "categories". */
  lemma CategoryMutationsStayInCategories(m: Mutation)
    requires IsCategoryMutation(m)
    ensures forall k :: k in Invalidates(m) ==> |k| > 0 && k[0] == S("categories")
    ensures Transactions() !in Invalidates(m) && Budgets() !in Invalidates(m)
    ensures DashboardSummary(None) !in Invalidates(m)
  {
  }

  /** The transaction list is invalidated by the transaction mutations and
      by deleting an account, and by nothing else. */
  lemma TransactionsKeyInvalidatedBy(m: Mutation)
    ensures Transactions() in Invalidates(m) <==> IsTransactionMutation(m) || m.DeleteAccount?
  {
    match m
    case UpdateAccount(id) => assert Account(id) != Transactions();
    case UpdateBudget(id) => assert Budget(id) != Transactions();
    case UpdateCategory(id) => assert Category(id) != Transactions();
    case UpdateGoal(id) => assert Goal(id) != Transactions() && GoalProgress(id) != Transactions();
    case UpdateGoalProgress(id) => assert Goal(id) != Transactions() && GoalProgress(id) != Transactions();
    case UpdateTransaction(id) => assert Invalidates(m)[0] == Transactions();
    case _ =>
  }

  /** The completed-goals list is refreshed by completing or deleting a
      goal, and by no other mutation. */
  lemma CompletedGoalsInvalidatedBy(m: Mutation)
    ensures CompletedGoals() in Invalidates(m) <==> m.CompleteGoal? || m.DeleteGoal?
  {
    match m
    case UpdateAccount(id) => assert Account(id) != CompletedGoals();
    case UpdateBudget(id) => assert Budget(id) != CompletedGoals();
    case UpdateCategory(id) => assert Category(id) != CompletedGoals();
    case UpdateGoal(id) => assert Goal(id) != CompletedGoals() && GoalProgress(id) != CompletedGoals();
    case UpdateGoalProgress(id) => assert Goal(id) != CompletedGoals() && GoalProgress(id) != CompletedGoals();
    case UpdateTransaction(id) => assert Transaction(id) != CompletedGoals();
    case _ =>
  }

  /** No mutation lists the same key twice. */
  lemma InvalidationListsHaveNoRepeats(m: Mutation)
    ensures forall i, j :: 0 <= i < j < |Invalidates(m)| ==> Invalidates(m)[i] != Invalidates(m)[j]
  {
  }

  /** `enabled: !!id`: single-record queries run only for a non-zero id. */
  function Enabled(id: int): (e: bool)
    ensures e <==> id != 0
  {
    id != 0
  }
}
