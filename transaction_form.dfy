/** The new-transaction dialog: its schema, its defaults, the category
    picker, the request it builds and how a submit settles. */
module TransactionForm {
  import opened Wrappers
  import opened Domain
  import Text
  import QueryKeys
  import opened Forms

  /** The form's fields, all text as the inputs hold them. */
  datatype Values = Values(
    amount: string, txType: string, description: string,
    date: string, accountId: string, categoryId: string)

  /** `transactionSchema`: required amount, a known type, a description of
      at least three characters, and a date, account and category. */
  predicate Valid(v: Values)
  {
    |v.amount| >= 1 && TxTypeOf(v.txType).Some? && |v.description| >= 3
    && |v.date| >= 1 && |v.accountId| >= 1 && |v.categoryId| >= 1
  }

  /** `defaultValues`, with `today` the ISO date of the current day. */
  function Defaults(today: string): Values
  {
    Values("", "EXPENSE", "", today, "", "")
  }

  /** A fresh form starts as an expense dated today and cannot be submitted
      until an amount, a description, an account and a category are given;
      filling those four in is all it takes. */
  lemma DefaultsNeedFourFields(today: string, amount: string, description: string, account: string, category: string)
    ensures TxTypeOf(Defaults(today).txType) == Some(Expense)
    ensures !Valid(Defaults(today))
    ensures |today| >= 1 ==>
      (Valid(Defaults(today).(amount := amount, description := description, accountId := account, categoryId := category))
       <==> |amount| >= 1 && |description| >= 3 && |account| >= 1 && |category| >= 1)
  {
  }

  /** `filteredCategories`: the categories of the selected type, expense
      ones for a transfer. */
  function Offered(categories: seq<Category>, selected: TxType): seq<Category>
  {
    CategoriesOfType(categories, OfferedFor(selected))
  }

  /** The picker shows exactly the categories of the selected type (expense
      ones for a transfer), in the order they came. */
  lemma OfferedIff(categories: seq<Category>, selected: TxType)
    ensures forall c :: c in Offered(categories, selected) <==>
      c in categories && c.categoryType == (if selected == Transfer then Expense else selected)
  {
    CategoriesOfTypeMembers(categories, OfferedFor(selected));
  }

  /** `CreateTransactionRequest`; a number `parseFloat`/`parseInt` cannot
      read is `None` (NaN). */
  datatype Request = Request(
    amount: Option<real>, txType: TxType, description: string,
    transactionDate: string, accountId: Option<int>, categoryId: Option<int>)

  /** The request `onSubmit` builds from validated values. */
  function RequestOf(v: Values): (r: Request)
    requires Valid(v)
    ensures r.txType == TxTypeOf(v.txType).value
    ensures r.description == v.description && r.transactionDate == v.date
  {
    Request(Text.ParseFloatPrefix(v.amount), TxTypeOf(v.txType).value, v.description, v.date,
            Text.ParseIntPrefix(v.accountId), Text.ParseIntPrefix(v.categoryId))
  }

  /** The account and category pickers hold `id.toString()`, so the request
      carries back exactly the ids that were picked; an amount typed as a
      whole number is sent as that number. */
  lemma PickedIdsReachTheRequest(v: Values, amount: int, account: int, category: int)
    requires Valid(v)
    requires v.amount == Text.IntToString(amount)
    requires v.accountId == Text.IntToString(account) && v.categoryId == Text.IntToString(category)
    ensures RequestOf(v).amount == Some(amount as real)
    ensures RequestOf(v).accountId == Some(account) && RequestOf(v).categoryId == Some(category)
  {
    Text.ParseFloatOfInt(amount);
    Text.ParseIntRoundTrip(account);
    Text.ParseIntRoundTrip(category);
  }

  /** The schema only asks for a non-empty amount: if the field held text
      with no digit, it would pass the schema and be sent as NaN. The
      dialog's number input does not produce such text; it hands the form
      "" instead, which the schema rejects. */
  lemma NonNumericAmountPassesSchema(v: Values)
    requires Valid(v) && v.amount == "abc"
    ensures RequestOf(v).amount.None?
  {
    assert Text.SplitSign(v.amount).1 == "abc";
    assert Text.LeadingDigits("abc") == [];
  }

  const SUCCESS_TEXT := "Transaction créée avec succès"
  const FAILURE_TEXT := "Erreur lors de la création de la transaction"

  /** What one submit sends and how it ends. */
  datatype Submission = Submission(request: Request, outcome: Outcome, invalidated: seq<QueryKeys.QueryKey>)

  /** `form.handleSubmit(onSubmit)`: nothing is sent while the values fail
      the schema; otherwise the request goes to `useCreateTransaction` and
      `reply` is how that call ended. */
  function Submit(v: Values, reply: Result<(), string>): (s: Option<Submission>)
    ensures s.Some? <==> Valid(v)
  {
    if !Valid(v) then None
    else Some(Submission(RequestOf(v), Settle(reply, SUCCESS_TEXT, FAILURE_TEXT),
                         QueryKeys.OnSettled(QueryKeys.CreateTransaction, reply.Success?)))
  }

  /** A successful creation closes and resets the dialog and refreshes the
      transaction list, accounts, budgets and the three dashboard keys; a
      failed one keeps the dialog open with its values, refreshes nothing,
      and shows the error's message, or the form's own text when it has
      none. */
  lemma SubmitSettles(v: Values, reply: Result<(), string>)
    requires Valid(v)
    ensures var s := Submit(v, reply).value;
      reply.Success? ==> (s.outcome.closeDialog && s.outcome.resetForm &&
        s.outcome.toast == SuccessToast(SUCCESS_TEXT) &&
        forall k :: k in QueryKeys.TransactionFallout() ==> k in s.invalidated)
    ensures var s := Submit(v, reply).value;
      reply.Failure? ==> (!s.outcome.closeDialog && !s.outcome.resetForm && s.invalidated == [] &&
        s.outcome.toast == ErrorToast(if reply.error != "" then reply.error else FAILURE_TEXT))
  {
    QueryKeys.TransactionMutationsRefreshDerivedData(QueryKeys.CreateTransaction);
  }
}
