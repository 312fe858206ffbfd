/** The records the client receives from, and sends to, the backend. Field names
    follow what the client code reads (`transactionDate`, flat user fields). */
module Domain {
  import opened Wrappers

  datatype TxType = Income | Expense | Transfer

  /** A category is an income or an expense category, never a transfer. */
  type CategoryType = t: TxType | t != Transfer witness Income

  /** A month as `Date.getMonth()` numbers it: 0 is January. */
  type MonthIndex = m: int | 0 <= m < 12

  datatype YearMonth = YearMonth(year: int, month: MonthIndex)

  datatype Date = Date(year: int, month: MonthIndex, day: int)

  function MonthOf(d: Date): YearMonth
  {
    YearMonth(d.year, d.month)
  }

  /** A day count that orders dates chronologically for days in 1..31. */
  function DayOrdinal(d: Date): int
  {
    (d.year * 12 + d.month) * 32 + d.day
  }

  datatype Category = Category(id: int, name: string, categoryType: CategoryType, color: string, icon: string)

  datatype Transaction = Transaction(
    id: int,
    amount: real,
    txType: TxType,
    description: string,
    transactionDate: Date,
    category: Option<Category>)

  datatype AccountType = Checking | Savings | CreditCard | Investment | Cash

  datatype Account = Account(id: int, name: string, accountType: AccountType, balance: real, currency: string)

  datatype BudgetPeriod = Daily | Weekly | Monthly | Yearly

  datatype Budget = Budget(
    id: int,
    name: string,
    amount: real,
    spent: real,
    period: BudgetPeriod,
    startDate: string,
    endDate: string,
    category: Option<Category>)

  /** Goal status and priority are whatever text the backend sends. */
  datatype Goal = Goal(
    id: int,
    name: string,
    description: string,
    targetAmount: real,
    currentAmount: real,
    targetDate: Date,
    status: string,
    priority: string,
    category: string)

  datatype GoalProgress = GoalProgress(
    goalId: int,
    percentage: real,
    remainingAmount: real,
    requiredMonthlySavings: real,
    status: string)

  datatype User = User(id: int, username: string, email: string, role: string)

  /** What `/auth/login` and `/auth/register` return inside the envelope. */
  datatype AuthResponse = AuthResponse(token: string, id: int, username: string, email: string, role: string)

  /** A thrown `Error`, of which the client only ever reads `message`. */
  datatype ApiError = ApiError(message: string)

  /** Sum of the amounts of the transactions of type `ty` dated in month `ym`. */
  function MonthTotal(ts: seq<Transaction>, ty: TxType, ym: YearMonth): real
  {
    if ts == [] then 0.0
    else
      var t := ts[|ts| - 1];
      MonthTotal(ts[..|ts| - 1], ty, ym) +
        (if t.txType == ty && MonthOf(t.transactionDate) == ym then t.amount else 0.0)
  }

  /** The month totals of two lists add up. */
  lemma {:induction false} MonthTotalConcat(a: seq<Transaction>, b: seq<Transaction>, ty: TxType, ym: YearMonth)
    ensures MonthTotal(a + b, ty, ym) == MonthTotal(a, ty, ym) + MonthTotal(b, ty, ym)
  {
    if b != [] {
      assert (a + b)[..|a + b| - 1] == a + b[..|b| - 1];
      MonthTotalConcat(a, b[..|b| - 1], ty, ym);
    } else {
      assert a + b == a;
    }
  }
}
